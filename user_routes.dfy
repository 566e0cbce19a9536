/** The account registry and its four handlers. An account is created
    inactive with an empty password by signup, becomes active when its PIN
    is set, and is then logged in with that PIN. Users are kept by contact
    number, which is unique. PIN hashing is the function `hash`; whether a
    stored access token still verifies is given by the set `validTokens`,
    and the token a refresh signs by `minted`. */
module UserRoutes {
  import opened Common
  import opened UserModel

  /** `isTokenExpired`: a missing token, or one that no longer verifies. */
  predicate Expired(token: Option<string>, validTokens: set<string>)
  {
    token.None? || token.value !in validTokens
  }

  /** The stored token after `generateToken`: replaced by a newly signed one
      when the stored one has expired, otherwise kept. */
  function Refreshed(token: Option<string>, validTokens: set<string>, minted: string): Option<string>
  {
    if Expired(token, validTokens) then Some(minted) else token
  }

  /** A refreshed token always verifies, provided the newly signed one does. */
  lemma RefreshedTokenVerifies(token: Option<string>, validTokens: set<string>, minted: string)
    requires minted in validTokens
    ensures Refreshed(token, validTokens, minted).Some?
    ensures Refreshed(token, validTokens, minted).value in validTokens
    ensures !Expired(Refreshed(token, validTokens, minted), validTokens)
    ensures forall again :: Refreshed(Refreshed(token, validTokens, minted), validTokens, again)
                            == Refreshed(token, validTokens, minted)
  {
  }

  /** The answer of `enterpin` for a registered user: 205 while the PIN has
      not been set, 500 when no PIN is sent, 401 for a wrong PIN, 200 otherwise. */
  function PinCheck(u: User, pin: Option<string>, hash: string -> string): (code: int)
    ensures code == HttpOk <==> u.isActive && pin.Some? && hash(pin.value) == u.password
    ensures code == HttpResetContent <==> !u.isActive
  {
    if !u.isActive then HttpResetContent
    else if pin.None? then HttpServerError
    else if hash(pin.value) != u.password then HttpUnauthorized
    else HttpOk
  }

  /** The user after `setpin` with PIN hash `hashed`. */
  function PinSet(u: User, hashed: string, validTokens: set<string>, minted: string): User
  {
    u.(password := hashed, isActive := true, accessToken := Refreshed(u.accessToken, validTokens, minted))
  }

  /** After `setpin` with a PIN, `enterpin` accepts exactly the PINs with the
      same hash, and `login` sees an active account. */
  lemma SetPinThenEnterPin(u: User, pin: string, other: string, hash: string -> string,
                           validTokens: set<string>, minted: string)
    ensures PinSet(u, hash(pin), validTokens, minted).isActive
    ensures PinCheck(PinSet(u, hash(pin), validTokens, minted), Some(pin), hash) == HttpOk
    ensures hash(other) != hash(pin) ==>
      PinCheck(PinSet(u, hash(pin), validTokens, minted), Some(other), hash) == HttpUnauthorized
  {
  }

  class UserRegistry {
    var users: map<string, User>
    var nextId: Id
    const hash: string -> string

    /** Users are filed under their own contact number, so contact numbers
        are unique; ids are distinct and below `nextId`; an active account
        holds the hash of some PIN. */
    ghost predicate Valid()
      reads this
    {
      && (forall c :: c in users ==> users[c].contactNumber == c && users[c].id < nextId)
      && (forall a, b :: a in users && b in users && a != b ==> users[a].id != users[b].id)
      && (forall c :: c in users && users[c].isActive ==> exists p :: users[c].password == hash(p))
    }

    constructor (hash: string -> string)
      ensures Valid() && users == map[] && this.hash == hash
    {
      users := map[];
      nextId := 0;
      this.hash := hash;
    }

    /** Two accounts never share a contact number. */
    lemma ContactNumbersUnique()
      requires Valid()
      ensures forall a, b :: a in users && b in users && a != b ==> users[a].contactNumber != users[b].contactNumber
    {
    }

    /** Signup (`POST /signup`): 400 when the contact number is taken;
        otherwise the user is built with an empty password and inactive, and
        saved (201) unless validation refuses it (500). */
    method Signup(name: Option<string>, contactNumber: string, role: Option<string>) returns (code: int)
      requires Valid()
      modifies this
      ensures Valid()
      ensures contactNumber in old(users) ==> code == HttpBadRequest && unchanged(this)
      ensures contactNumber !in old(users) && !(Required(name) && contactNumber != "" && (role.None? || role.value in RoleNames)) ==>
        code == HttpServerError && unchanged(this)
      ensures contactNumber !in old(users) && Required(name) && contactNumber != "" && (role.None? || role.value in RoleNames) ==>
        && code == HttpCreated
        && users.Keys == old(users).Keys + {contactNumber}
        && (forall c :: c in old(users) ==> users[c] == old(users)[c])
        && var u := users[contactNumber];
           && u.name == name.value && u.password == "" && !u.isActive && u.accessToken.None?
           && (role.None? ==> u.role == Catcher)
           && (role.Some? ==> RoleName(u.role) == role.value)
    {
      if contactNumber in users {
        return HttpBadRequest;
      }
      var user := MakeUser(nextId, name, Some(contactNumber), "", Some(false), role);
      if user.None? {
        return HttpServerError;
      }
      users := users[contactNumber := user.value];
      nextId := nextId + 1;
      code := HttpCreated;
    }

    /** Set PIN (`POST /setpin`): 401 for an unknown contact number; 500 when
        no PIN is sent (hashing fails); otherwise the PIN's hash is stored,
        the token is refreshed if it has expired, the account becomes active
        whatever its state was, and the call answers 201 with the token. */
    method SetPin(contactNumber: string, pin: Option<string>, validTokens: set<string>, minted: string)
      returns (code: int, token: Option<string>)
      requires Valid()
      modifies this`users
      ensures Valid()
      ensures contactNumber !in old(users) ==> code == HttpUnauthorized && token.None? && users == old(users)
      ensures contactNumber in old(users) && pin.None? ==> code == HttpServerError && token.None? && users == old(users)
      ensures contactNumber in old(users) && pin.Some? ==>
        && code == HttpCreated
        && users == old(users)[contactNumber := PinSet(old(users)[contactNumber], hash(pin.value), validTokens, minted)]
        && token == users[contactNumber].accessToken
      ensures forall c :: c in old(users) ==> c in users && (old(users)[c].isActive ==> users[c].isActive)
    {
      token := None;
      if contactNumber !in users {
        return HttpUnauthorized, token;
      }
      if pin.None? {
        return HttpServerError, token;
      }
      var user := users[contactNumber];
      user := user.(password := hash(pin.value));
      var expired := user.accessToken.None? || user.accessToken.value !in validTokens;
      if expired {
        user := user.(accessToken := Some(minted));
        users := users[contactNumber := user];
      }
      user := user.(isActive := true);
      users := users[contactNumber := user];
      code, token := HttpCreated, user.accessToken;
    }

    /** Login (`POST /login`): changes nothing; 401 for an unknown contact
        number, 200 ("Enter PIN") for an active account, 205 for one whose PIN
        has not been set. */
    method Login(contactNumber: string) returns (code: int)
      ensures code == HttpUnauthorized <==> contactNumber !in users
      ensures code == HttpOk <==> contactNumber in users && users[contactNumber].isActive
      ensures code == HttpResetContent <==> contactNumber in users && !users[contactNumber].isActive
    {
      if contactNumber !in users {
        return HttpUnauthorized;
      }
      if users[contactNumber].isActive {
        return HttpOk;
      }
      return HttpResetContent;
    }

    /** Enter PIN (`POST /enterpin`): 401 for an unknown contact number, then
        the answer of `PinCheck`; on success the token is refreshed if it has
        expired and returned. Nothing else changes. */
    method EnterPin(contactNumber: string, pin: Option<string>, validTokens: set<string>, minted: string)
      returns (code: int, token: Option<string>)
      requires Valid()
      modifies this`users
      ensures Valid()
      ensures contactNumber !in old(users) ==> code == HttpUnauthorized && users == old(users)
      ensures contactNumber in old(users) ==> code == PinCheck(old(users)[contactNumber], pin, hash)
      ensures code != HttpOk ==> users == old(users) && token.None?
      ensures code == HttpOk ==>
        var u := old(users)[contactNumber];
        && users == old(users)[contactNumber := u.(accessToken := Refreshed(u.accessToken, validTokens, minted))]
        && token == users[contactNumber].accessToken
    {
      token := None;
      if contactNumber !in users {
        return HttpUnauthorized, token;
      }
      var user := users[contactNumber];
      if !user.isActive {
        return HttpResetContent, token;
      }
      if pin.None? {
        return HttpServerError, token;
      }
      if hash(pin.value) != user.password {
        return HttpUnauthorized, token;
      }
      var expired := user.accessToken.None? || user.accessToken.value !in validTokens;
      if expired {
        user := user.(accessToken := Some(minted));
        users := users[contactNumber := user];
      }
      code, token := HttpOk, user.accessToken;
    }
  }
}
