/** The account routes: register, login, profile update, password change
    and adding an address. Password hashing, hash comparison and token
    signing are the parameters `hash`, `matches` and `sign`; a body field the
    client left out is `None`, and using it where the handler calls a string
    method on it throws, which the handler answers with 500. */
module AuthRoutes {
  import opened JsString
  import opened Store

  /** What the routes send back about a user. */
  datatype UserView = UserView(id: int, email: string, firstName: Option<string>, lastName: Option<string>,
                               phone: Option<string>, role: string)

  function ViewOf(u: User): UserView {
    UserView(u.id, u.email, u.firstName, u.lastName, u.phone, u.role)
  }

  /** The payload and options a token is signed with. */
  datatype Claims = Claims(userId: int, expiresIn: string)

  /** `generateToken`: the payload is the user id alone, valid for 30 days. */
  function TokenClaims(userId: int): (c: Claims)
    ensures c.userId == userId && c.expiresIn == "30d"
  {
    Claims(userId, "30d")
  }

  const ShortPassword := "La contrasena debe tener al menos 6 caracteres"
  const EmailTaken := "Ya existe una cuenta con este email"
  const RegisterError := "Error al crear la cuenta"
  const BadCredentials := "Email o contrasena incorrectos"
  const LoginError := "Error al iniciar sesion"
  const MinPasswordLength := 6

  /** No two users share an email. */
  predicate UniqueEmails(users: seq<User>) {
    forall i, j :: 0 <= i < j < |users| ==> users[i].email != users[j].email
  }

  predicate EmailTakenIn(users: seq<User>, email: string) {
    exists u :: u in users && u.email == email
  }

  /** The row a registration inserts: the lower-cased email, the hash, empty
      names and phone as NULL, role `customer`, active by the column's
      default. */
  function NewUser(id: int, email: string, passwordHash: string, firstName: Option<string>,
                   lastName: Option<string>, phone: Option<string>): (u: User)
    ensures u.email == ToLower(email) && u.role == "customer" && u.isActive
    ensures u.firstName == OrNull(firstName) && u.lastName == OrNull(lastName) && u.phone == OrNull(phone)
  {
    User(id, ToLower(email), passwordHash, OrNull(firstName), OrNull(lastName), OrNull(phone), "customer", true)
  }

  /** POST /register. */
  method Register(db: Database, email: Option<string>, password: Option<string>, firstName: Option<string>,
                  lastName: Option<string>, phone: Option<string>, hash: string -> string, sign: Claims -> string)
    returns (r: Reply<(string, UserView)>)
    modifies db`users, db`nextId
    ensures password.None? ==> r == Fail(500, RegisterError) && unchanged(db)
    ensures password.Some? && Utf16Length(password.value) < MinPasswordLength ==> r == Fail(400, ShortPassword) && unchanged(db)
    ensures password.Some? && Utf16Length(password.value) >= MinPasswordLength && email.None? ==>
      r == Fail(500, RegisterError) && unchanged(db)
    ensures (password.Some? && Utf16Length(password.value) >= MinPasswordLength && email.Some?
             && EmailTakenIn(old(db.users), ToLower(email.value))) ==> r == Fail(409, EmailTaken) && unchanged(db)
    ensures (password.Some? && Utf16Length(password.value) >= MinPasswordLength && email.Some?
             && !EmailTakenIn(old(db.users), ToLower(email.value))) ==>
        var u := NewUser(old(db.nextId), email.value, hash(password.value), firstName, lastName, phone);
        db.users == old(db.users) + [u] && db.nextId == old(db.nextId) + 1
        && r == Ok(201, (sign(TokenClaims(u.id)), ViewOf(u)))
  {
    if password.None? {
      return Fail(500, RegisterError);
    }
    if Utf16Length(password.value) < MinPasswordLength {
      return Fail(400, ShortPassword);
    }
    if email.None? {
      return Fail(500, RegisterError);
    }
    if EmailTakenIn(db.users, ToLower(email.value)) {
      return Fail(409, EmailTaken);
    }
    var id := db.FreshId();
    var u := NewUser(id, email.value, hash(password.value), firstName, lastName, phone);
    db.users := db.users + [u];
    r := Ok(201, (sign(TokenClaims(u.id)), ViewOf(u)));
  }

  /** Registration keeps emails unique: the new email was checked against
      every stored one. */
  lemma RegisterKeepsEmailsUnique(users: seq<User>, u: User)
    requires UniqueEmails(users) && !EmailTakenIn(users, u.email)
    ensures UniqueEmails(users + [u])
  {
    forall i, j | 0 <= i < j < |users + [u]| ensures (users + [u])[i].email != (users + [u])[j].email {
      if j == |users| {
        assert users[i] in users;
      }
    }
  }

  /** The stored email is already lower case, so registration and login,
      which both lower-case the email they receive, compare like with like. */
  lemma StoredEmailIsLowerCase(id: int, email: string, passwordHash: string, firstName: Option<string>,
                               lastName: Option<string>, phone: Option<string>)
    ensures var u := NewUser(id, email, passwordHash, firstName, lastName, phone);
      ToLower(u.email) == u.email
  {
    ToLowerIdempotent(email);
  }

  /** The first active user with the given email. */
  function FindActive(users: seq<User>, email: string): (r: Option<User>)
    ensures r.Some? ==> r.value in users && r.value.email == email && r.value.isActive
    ensures r.None? ==> forall u :: u in users && u.email == email ==> !u.isActive
  {
    if users == [] then None
    else if users[0].email == email && users[0].isActive then Some(users[0])
    else FindActive(users[1..], email)
  }

  /** POST /login. `matches(password, hash)` is the hash comparison. */
  function Login(users: seq<User>, email: Option<string>, password: Option<string>,
                 matches: (string, string) -> bool, sign: Claims -> string): (r: Reply<(string, UserView)>)
    ensures r.Ok? ==>
      && r.code == 200 && email.Some? && password.Some?
      && FindActive(users, ToLower(email.value)).Some?
      && matches(password.value, FindActive(users, ToLower(email.value)).value.passwordHash)
    ensures r.Fail? ==> r.code == 401 ==> r.error == BadCredentials
  {
    if email.None? then Fail(500, LoginError)
    else
      var u := FindActive(users, ToLower(email.value));
      if u.None? then Fail(401, BadCredentials)
      else if password.None? then Fail(500, LoginError)
      else if !matches(password.value, u.value.passwordHash) then Fail(401, BadCredentials)
      else Ok(200, (sign(TokenClaims(u.value.id)), ViewOf(u.value)))
  }

  /** An unknown or inactive email and a wrong password get the same reply,
      so the reply does not tell which one failed. */
  lemma LoginHidesWhichFailed(users: seq<User>, email: string, password: string,
                              matches: (string, string) -> bool, sign: Claims -> string)
    requires FindActive(users, ToLower(email)).None?
      || !matches(password, FindActive(users, ToLower(email)).value.passwordHash)
    ensures Login(users, Some(email), Some(password), matches, sign) == Fail(401, BadCredentials)
  {
  }

  /** A successful login answers with a token for the user's own id. */
  lemma LoginTokenIsForUser(users: seq<User>, email: string, password: string,
                            matches: (string, string) -> bool, sign: Claims -> string)
    requires Login(users, Some(email), Some(password), matches, sign).Ok?
    ensures var u := FindActive(users, ToLower(email)).value;
      Login(users, Some(email), Some(password), matches, sign).value == (sign(Claims(u.id, "30d")), ViewOf(u))
  {
  }

  /** Appending a user whose email no stored user has makes it the one a
      lookup by that email finds. */
  lemma {:induction false} FindActiveAppended(users: seq<User>, u: User)
    requires !EmailTakenIn(users, u.email) && u.isActive
    ensures FindActive(users + [u], u.email) == Some(u)
  {
    if users == [] {
    } else {
      assert (users + [u])[1..] == users[1..] + [u];
      assert users[0] in users;
      FindActiveAppended(users[1..], u);
    }
  }

  /** A user who has just registered can log in with the same email, in any
      letter case, and password, provided the hash comparison accepts the
      password against its own hash. */
  lemma RegisteredUserCanLogIn(users: seq<User>, id: int, email: string, loginEmail: string, password: string,
                               hash: string -> string, matches: (string, string) -> bool, sign: Claims -> string)
    requires !EmailTakenIn(users, ToLower(email)) && ToLower(loginEmail) == ToLower(email)
    requires matches(password, hash(password))
    ensures var u := NewUser(id, email, hash(password), None, None, None);
      Login(users + [u], Some(loginEmail), Some(password), matches, sign) == Ok(200, (sign(TokenClaims(id)), ViewOf(u)))
  {
    FindActiveAppended(users, NewUser(id, email, hash(password), None, None, None));
  }

  /** PUT /me's UPDATE on the user with id `uid`. */
  function WithProfile(users: seq<User>, uid: int, firstName: Option<string>, lastName: Option<string>,
                       phone: Option<string>): (r: seq<User>)
    ensures |r| == |users|
    ensures forall k :: 0 <= k < |users| ==>
      r[k] == if users[k].id == uid then users[k].(firstName := OrNull(firstName), lastName := OrNull(lastName), phone := OrNull(phone))
      else users[k]
  {
    seq(|users|, k requires 0 <= k < |users| =>
      if users[k].id == uid then users[k].(firstName := OrNull(firstName), lastName := OrNull(lastName), phone := OrNull(phone))
      else users[k])
  }

  /** The first user with id `uid`. */
  function FindById(users: seq<User>, uid: int): (r: Option<User>)
    ensures r.Some? ==> r.value in users && r.value.id == uid
    ensures r.None? ==> forall u :: u in users ==> u.id != uid
  {
    if users == [] then None
    else if users[0].id == uid then Some(users[0])
    else FindById(users[1..], uid)
  }

  /** PUT /me for the authenticated user `uid`: empty names and phone become
      NULL; the reply carries the updated row. */
  method UpdateProfile(db: Database, uid: int, firstName: Option<string>, lastName: Option<string>,
                       phone: Option<string>) returns (r: Reply<Option<UserView>>)
    modifies db`users
    ensures db.users == WithProfile(old(db.users), uid, firstName, lastName, phone)
    ensures r.Ok? && r.code == 200
    ensures r.value.Some? <==> exists u :: u in old(db.users) && u.id == uid
    ensures r.value.Some? ==>
      && r.value.value.firstName == OrNull(firstName) && r.value.value.lastName == OrNull(lastName)
      && r.value.value.phone == OrNull(phone)
  {
    db.users := WithProfile(db.users, uid, firstName, lastName, phone);
    var u := FindById(db.users, uid);
    if u.Some? {
      var k :| 0 <= k < |db.users| && db.users[k] == u.value;
    }
    r := Ok(200, if u.Some? then Some(ViewOf(u.value)) else None);
  }

  const PasswordChanged := "Contrasena actualizada correctamente"
  const ChangePasswordError := "Error al cambiar contrasena"

  function WithPassword(users: seq<User>, uid: int, passwordHash: string): (r: seq<User>)
    ensures |r| == |users|
    ensures forall k :: 0 <= k < |users| ==>
      r[k] == if users[k].id == uid then users[k].(passwordHash := passwordHash) else users[k]
  {
    seq(|users|, k requires 0 <= k < |users| =>
      if users[k].id == uid then users[k].(passwordHash := passwordHash) else users[k])
  }

  /** PUT /change-password for user `uid`. The current password is received
      and never checked. */
  method ChangePassword(db: Database, uid: int, currentPassword: Option<string>, newPassword: Option<string>,
                        hash: string -> string) returns (r: Reply<string>)
    modifies db`users
    ensures newPassword.None? ==> r == Fail(500, ChangePasswordError) && db.users == old(db.users)
    ensures newPassword.Some? && Utf16Length(newPassword.value) < MinPasswordLength ==>
      r == Fail(400, ShortPassword) && db.users == old(db.users)
    ensures newPassword.Some? && Utf16Length(newPassword.value) >= MinPasswordLength ==>
      r == Ok(200, PasswordChanged) && db.users == WithPassword(old(db.users), uid, hash(newPassword.value))
  {
    if newPassword.None? {
      return Fail(500, ChangePasswordError);
    }
    if Utf16Length(newPassword.value) < MinPasswordLength {
      return Fail(400, ShortPassword);
    }
    db.users := WithPassword(db.users, uid, hash(newPassword.value));
    r := Ok(200, PasswordChanged);
  }

  /** Changing the password touches only the password hash of that user. */
  lemma PasswordChangeTouchesOnlyHash(users: seq<User>, uid: int, h: string)
    ensures var r := WithPassword(users, uid, h);
      forall k :: 0 <= k < |users| ==>
        r[k].(passwordHash := users[k].passwordHash) == users[k] && (users[k].id == uid ==> r[k].passwordHash == h)
  {
  }

  /** At most one default address per user. */
  predicate OneDefault(addrs: seq<Address>, uid: int) {
    forall i, j :: 0 <= i < j < |addrs| && addrs[i].userId == uid && addrs[j].userId == uid ==>
      !(addrs[i].isDefault && addrs[j].isDefault)
  }

  /** `UPDATE user_addresses SET is_default=FALSE WHERE user_id=$1`. */
  function ClearDefaults(addrs: seq<Address>, uid: int): (r: seq<Address>)
    ensures |r| == |addrs|
    ensures forall k :: 0 <= k < |addrs| ==>
      r[k] == if addrs[k].userId == uid then addrs[k].(isDefault := false) else addrs[k]
  {
    seq(|addrs|, k requires 0 <= k < |addrs| => if addrs[k].userId == uid then addrs[k].(isDefault := false) else addrs[k])
  }

  /** The row POST /addresses inserts: the label defaults to `Casa`, empty
      province and postal code become NULL. */
  function NewAddress(id: int, uid: int, addressLabel: Option<string>, street: Option<string>, city: Option<string>,
                      province: Option<string>, postalCode: Option<string>, isDefault: Option<bool>): (a: Address)
    ensures a.addressLabel == (if addressLabel.Some? && addressLabel.value != [] then addressLabel.value else "Casa")
    ensures a.isDefault <==> isDefault == Some(true)
    ensures a.userId == uid && a.province == OrNull(province) && a.postalCode == OrNull(postalCode)
  {
    Address(id, uid, if addressLabel.Some? then Or(addressLabel.value, "Casa") else "Casa", street, city,
            OrNull(province), OrNull(postalCode), isDefault == Some(true))
  }

  /** POST /addresses for user `uid`: a default address first clears the
      user's other defaults. */
  method AddAddress(db: Database, uid: int, addressLabel: Option<string>, street: Option<string>, city: Option<string>,
                    province: Option<string>, postalCode: Option<string>, isDefault: Option<bool>)
    returns (r: Reply<Address>)
    modifies db`addresses, db`nextId
    ensures var a := NewAddress(old(db.nextId), uid, addressLabel, street, city, province, postalCode, isDefault);
      r == Ok(201, a)
      && db.addresses == (if isDefault == Some(true) then ClearDefaults(old(db.addresses), uid) else old(db.addresses)) + [a]
    ensures db.nextId == old(db.nextId) + 1
  {
    if isDefault == Some(true) {
      db.addresses := ClearDefaults(db.addresses, uid);
    }
    var id := db.FreshId();
    var a := NewAddress(id, uid, addressLabel, street, city, province, postalCode, isDefault);
    db.addresses := db.addresses + [a];
    r := Ok(201, a);
  }

  /** After adding a default address, it is the user's only default. */
  lemma NewDefaultIsOnlyDefault(addrs: seq<Address>, a: Address)
    requires a.isDefault
    ensures var r := ClearDefaults(addrs, a.userId) + [a];
      forall k :: 0 <= k < |r| && r[k].userId == a.userId && r[k].isDefault ==> k == |r| - 1
  {
  }

  /** Adding an address keeps at most one default per user, whichever way
      the flag is set. */
  lemma AddAddressKeepsOneDefault(addrs: seq<Address>, a: Address, v: int)
    requires OneDefault(addrs, v)
    requires !a.isDefault || a.userId != v || forall x :: x in addrs && x.userId == v ==> !x.isDefault
    ensures OneDefault(addrs + [a], v)
  {
    var r := addrs + [a];
    forall i, j | 0 <= i < j < |r| && r[i].userId == v && r[j].userId == v ensures !(r[i].isDefault && r[j].isDefault) {
      if j == |addrs| {
        assert r[i] in addrs;
      }
    }
  }

  /** Clearing the defaults of the user leaves none, so the add route keeps
      at most one default per user. */
  lemma AddAddressRuleKeepsOneDefault(addrs: seq<Address>, uid: int, a: Address, v: int)
    requires OneDefault(addrs, v) && a.userId == uid
    ensures OneDefault((if a.isDefault then ClearDefaults(addrs, uid) else addrs) + [a], v)
  {
    var before := if a.isDefault then ClearDefaults(addrs, uid) else addrs;
    if a.isDefault {
      assert OneDefault(before, v);
    }
    AddAddressKeepsOneDefault(before, a, v);
  }
}
