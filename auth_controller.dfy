/**
 * The auth endpoint handlers of backend/controllers/authController.js over an in-memory user
 * store. `User.findOne({email})`, `findById`, `create` and `save` become reads and updates of
 * the map `users`; the ObjectId that `create` assigns is the counter `nextId`; bcrypt is an
 * uninterpreted hash function `hash` and the salt that `genSalt` draws is a parameter; the
 * clock that `jwt.sign` reads is the parameter `now`.
 */
module AuthController {
  import opened Wrappers
  import opened Js
  import opened Tokens

  type Salt = nat
  type Digest = int

  /** bcrypt's one-way function of a salt and a password. */
  type Hasher = (Salt, string) -> Digest

  /** What is stored in place of a password: the salt and the digest, never the plaintext. */
  datatype PasswordHash = PasswordHash(salt: Salt, digest: Digest)

  /** `bcrypt.hash(password, salt)`. */
  function Hash(h: Hasher, password: string, salt: Salt): PasswordHash
  {
    PasswordHash(salt, h(salt, password))
  }

  /** `bcrypt.compare(password, stored)`: re-hash with the stored salt and compare digests. */
  predicate Compare(h: Hasher, password: string, stored: PasswordHash)
  {
    h(stored.salt, password) == stored.digest
  }

  /** A password always matches its own hash, whatever the salt. */
  lemma CompareHashed(h: Hasher, password: string, salt: Salt)
    ensures Compare(h, password, Hash(h, password, salt))
  {
  }

  datatype User = User(
    id: UserId,
    name: string,
    email: string,
    password: PasswordHash,
    profileImageUrl: Option<string>)

  /** The user as the handlers send it out: the same record without its password. */
  datatype PublicUser = PublicUser(id: UserId, name: string, email: string, profileImageUrl: Option<string>)

  function Public(u: User): PublicUser
  {
    PublicUser(u.id, u.name, u.email, u.profileImageUrl)
  }

  datatype Body =
    | Message(message: string)
    | Session(user: PublicUser, accessToken: Jwt, refreshToken: Jwt)
    | Profile(user: PublicUser)
    | AccessToken(accessToken: Jwt)

  datatype Response = Response(status: nat, body: Body)

  const UserExists := "User already exists"
  const InvalidCredentials := "Invalid email or password"
  const RefreshRequired := "Refresh token required"
  const InvalidRefreshToken := "Invalid refresh token"
  const UserNotFound := "User not found"
  const ServerError := "Server Error"

  /** The body of PUT /profile; every field may be missing. */
  datatype UpdateBody = UpdateBody(
    name: Option<string>,
    email: Option<string>,
    password: Option<string>,
    profileImageUrl: Option<string>)

  /** `given || current` on a string field. */
  function Merge(given: Option<string>, current: string): string
  {
    if Truthy(given) then given.value else current
  }

  /** `given || current` on a field that may itself be missing. */
  function MergeOptional(given: Option<string>, current: Option<string>): Option<string>
  {
    if Truthy(given) then given else current
  }

  /** The record after the assignments of updateUserProfile; the password is re-hashed with `salt` when given. */
  function Patch(h: Hasher, u: User, body: UpdateBody, salt: Salt): User
  {
    User(
      u.id,
      Merge(body.name, u.name),
      Merge(body.email, u.email),
      if Truthy(body.password) then Hash(h, body.password.value, salt) else u.password,
      MergeOptional(body.profileImageUrl, u.profileImageUrl))
  }

  /** An update that gives only a name changes the name and nothing else. */
  lemma PatchOnlyName(h: Hasher, u: User, name: string, salt: Salt)
    requires name != ""
    ensures Patch(h, u, UpdateBody(Some(name), None, None, None), salt) == u.(name := name)
  {
  }

  /** A body whose fields are all missing or empty changes nothing: empty strings are not written. */
  lemma PatchFalsyIsIdentity(h: Hasher, u: User, body: UpdateBody, salt: Salt)
    requires !Truthy(body.name) && !Truthy(body.email) && !Truthy(body.password) && !Truthy(body.profileImageUrl)
    ensures Patch(h, u, body, salt) == u
  {
  }

  /** Some user other than `except` has this email. */
  ghost predicate EmailTaken(users: map<UserId, User>, email: string, except: Option<UserId>)
  {
    exists id :: id in users && users[id].email == email && Some(id) != except
  }

  /** A user with this email exists and the password matches their stored hash. */
  ghost predicate CredentialsMatch(h: Hasher, users: map<UserId, User>, email: string, password: string)
  {
    exists id :: id in users && users[id].email == email && Compare(h, password, users[id].password)
  }

  class UserStore {
    const hash: Hasher
    var users: map<UserId, User>
    var nextId: UserId

    /** Records are filed under their own id, ids are below the next one to assign, emails are unique. */
    ghost predicate Valid()
      reads this
    {
      && (forall id :: id in users ==> users[id].id == id && id < nextId)
      && (forall i, j :: i in users && j in users && users[i].email == users[j].email ==> i == j)
    }

    constructor (hash: Hasher)
      ensures Valid() && this.hash == hash && users == map[] && nextId == 0
    {
      this.hash := hash;
      users := map[];
      nextId := 0;
    }

    /** `User.findOne({ email })`. */
    method FindByEmail(email: string) returns (found: Option<User>)
      requires Valid()
      ensures found.Some? ==> found.value.id in users && users[found.value.id] == found.value && found.value.email == email
      ensures found.None? <==> !EmailTaken(users, email, None)
    {
      if exists id :: id in users && users[id].email == email {
        var id :| id in users && users[id].email == email;
        found := Some(users[id]);
      } else {
        found := None;
      }
    }

    /** POST /register. */
    method RegisterUser(name: string, email: string, password: string, profileImageUrl: Option<string>, salt: Salt, now: Time)
      returns (res: Response)
      requires Valid()
      modifies this
      ensures Valid()
      ensures EmailTaken(old(users), email, None) ==>
        res == Response(400, Message(UserExists)) && users == old(users) && nextId == old(nextId)
      ensures !EmailTaken(old(users), email, None) ==>
        var u := User(old(nextId), name, email, Hash(hash, password, salt), profileImageUrl);
        && u.id !in old(users)
        && users == old(users)[u.id := u]
        && nextId == old(nextId) + 1
        && res == Response(201, Session(Public(u), GenerateAccessToken(u.id, now), GenerateRefreshToken(u.id, now)))
    {
      var existing := FindByEmail(email);
      if existing.Some? {
        return Response(400, Message(UserExists));
      }
      var hashed := Hash(hash, password, salt);
      var user := User(nextId, name, email, hashed, profileImageUrl);
      users := users[user.id := user];
      nextId := nextId + 1;
      var accessToken := GenerateAccessToken(user.id, now);
      var refreshToken := GenerateRefreshToken(user.id, now);
      res := Response(201, Session(Public(user), accessToken, refreshToken));
    }

    /** POST /login: one answer for an unknown email and for a wrong password. */
    method LoginUser(email: string, password: string, now: Time) returns (res: Response)
      requires Valid()
      ensures res.status == 200 <==> CredentialsMatch(hash, users, email, password)
      ensures res.status != 200 ==> res == Response(401, Message(InvalidCredentials))
      ensures res.status == 200 ==>
        && res.body.Session?
        && res.body.user.id in users
        && res.body.user == Public(users[res.body.user.id])
        && res.body.user.email == email
        && res.body.accessToken == GenerateAccessToken(res.body.user.id, now)
        && res.body.refreshToken == GenerateRefreshToken(res.body.user.id, now)
    {
      var found := FindByEmail(email);
      if found.None? {
        return Response(401, Message(InvalidCredentials));
      }
      var user := found.value;
      if !Compare(hash, password, user.password) {
        return Response(401, Message(InvalidCredentials));
      }
      var accessToken := GenerateAccessToken(user.id, now);
      var refreshToken := GenerateRefreshToken(user.id, now);
      res := Response(200, Session(Public(user), accessToken, refreshToken));
    }

    /**
     * POST /refresh: a new access token only; the refresh token is never reissued. `None` stands
     * for every falsy `refreshToken` in the body (missing, `null`, ""), which `!refreshToken`
     * turns away with 401; `Some(Malformed)` stands only for a truthy value that is not a token
     * signed with either secret.
     */
    method RefreshToken(token: Option<Jwt>, now: Time) returns (res: Response)
      requires Valid()
      ensures token.None? ==> res == Response(401, Message(RefreshRequired))
      ensures token.Some? && Verify(token.value, Refresh, now).Err? ==> res == Response(403, Message(InvalidRefreshToken))
      ensures token.Some? && Verify(token.value, Refresh, now).Ok? ==>
        var id := Verify(token.value, Refresh, now).value;
        if id in users then res == Response(200, AccessToken(GenerateAccessToken(id, now)))
        else res == Response(401, Message(InvalidRefreshToken))
      ensures res.status == 200 ==>
        res.body.AccessToken? && Verify(res.body.accessToken, Access, now) == Verify(token.value, Refresh, now)
    {
      if token.None? {
        return Response(401, Message(RefreshRequired));
      }
      var decoded := Verify(token.value, Refresh, now);
      if decoded.Err? {
        return Response(403, Message(InvalidRefreshToken));
      }
      if decoded.value !in users {
        return Response(401, Message(InvalidRefreshToken));
      }
      var user := users[decoded.value];
      res := Response(200, AccessToken(GenerateAccessToken(user.id, now)));
    }

    /** GET /profile for the user id that the access guard put on the request. */
    method GetUserProfile(id: UserId) returns (res: Response)
      requires Valid()
      ensures id !in users ==> res == Response(404, Message(UserNotFound))
      ensures id in users ==> res == Response(200, Profile(Public(users[id])))
    {
      if id !in users {
        return Response(404, Message(UserNotFound));
      }
      res := Response(200, Profile(Public(users[id])));
    }

    /**
     * PUT /profile for the user id that the access guard put on the request. A new email that
     * another user already has is refused by the store's unique index when the record is saved,
     * which the handler's catch reports as a server error.
     */
    method UpdateUserProfile(id: UserId, body: UpdateBody, salt: Salt) returns (res: Response)
      requires Valid()
      modifies this
      ensures Valid() && nextId == old(nextId)
      ensures id !in old(users) ==> res == Response(404, Message(UserNotFound)) && users == old(users)
      ensures id in old(users) ==>
        var u := Patch(hash, old(users)[id], body, salt);
        if EmailTaken(old(users), u.email, Some(id)) then
          res == Response(500, Message(ServerError)) && users == old(users)
        else
          && users == old(users)[id := u]
          && res == Response(200, Profile(Public(u)))
          && u.id == id
          && u.name == (if Truthy(body.name) then body.name.value else old(users)[id].name)
          && u.email == (if Truthy(body.email) then body.email.value else old(users)[id].email)
          && u.profileImageUrl == (if Truthy(body.profileImageUrl) then body.profileImageUrl else old(users)[id].profileImageUrl)
          && (Truthy(body.password) ==> Compare(hash, body.password.value, u.password))
          && (!Truthy(body.password) ==> u.password == old(users)[id].password)
    {
      if id !in users {
        return Response(404, Message(UserNotFound));
      }
      var user := users[id];
      user := user.(name := Merge(body.name, user.name));
      user := user.(email := Merge(body.email, user.email));
      user := user.(profileImageUrl := MergeOptional(body.profileImageUrl, user.profileImageUrl));
      if Truthy(body.password) {
        user := user.(password := Hash(hash, body.password.value, salt));
      }
      // user.save(): the unique index on email rejects a clash with another record
      if exists other :: other in users && users[other].email == user.email && other != id {
        return Response(500, Message(ServerError));
      }
      users := users[id := user];
      res := Response(200, Profile(Public(user)));
    }

    /**
     * Register, then log in with the same credentials: the login succeeds for the new user
     * and both sets of tokens name that user.
     */
    method RegisterThenLogin(name: string, email: string, password: string, salt: Salt, now: Time, later: Time)
      returns (registered: Response, loggedIn: Response)
      requires Valid()
      requires !EmailTaken(users, email, None)
      modifies this
      ensures Valid()
      ensures registered.status == 201 && registered.body.Session?
      ensures loggedIn.status == 200 && loggedIn.body.Session?
      ensures loggedIn.body.user == registered.body.user
      ensures loggedIn.body.accessToken == GenerateAccessToken(registered.body.user.id, later)
    {
      registered := RegisterUser(name, email, password, None, salt, now);
      var id := registered.body.user.id;
      CompareHashed(hash, password, salt);
      assert users[id].email == email && Compare(hash, password, users[id].password);
      loggedIn := LoginUser(email, password, later);
    }

    /**
     * Log in, then, while the refresh token is still valid, refresh and fetch the profile with
     * the new access token: the profile is the one that logged in.
     */
    method LoginRefreshProfile(email: string, password: string, loginTime: Time, refreshTime: Time)
      returns (profile: Response)
      requires Valid()
      requires CredentialsMatch(hash, users, email, password)
      requires loginTime <= refreshTime < loginTime + RefreshLifetime
      ensures profile.status == 200 && profile.body.Profile?
      ensures profile.body.user.email == email
      ensures profile.body.user.id in users && profile.body.user == Public(users[profile.body.user.id])
    {
      var login := LoginUser(email, password, loginTime);
      var refreshed := RefreshToken(Some(login.body.refreshToken), refreshTime);
      // the access guard: verify the bearer token with the access secret
      var guard := Verify(refreshed.body.accessToken, Access, refreshTime);
      profile := GetUserProfile(guard.value);
    }
  }
}
