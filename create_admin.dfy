/** The script `createAdmin.js`: make sure the configured email belongs to
    an administrator, promoting an existing user or inserting a new one.
    The environment is a parameter and bcrypt is the `hash` function. */
module CreateAdmin {
  import opened JsString
  import opened Store
  import AuthRoutes

  /** The environment variables the script reads; `None` when unset. */
  datatype Env = Env(email: Option<string>, password: Option<string>, firstName: Option<string>,
                     lastName: Option<string>)

  /** `process.env.X || fallback`: unset and empty both fall back. */
  function EnvOr(v: Option<string>, fallback: string): (r: string)
    ensures v.Some? && v.value != [] ==> r == v.value
    ensures v.None? || v.value == [] ==> r == fallback
  {
    if v.Some? then Or(v.value, fallback) else fallback
  }

  /** The settings after the defaults are applied. */
  datatype Settings = Settings(email: string, password: string, firstName: string, lastName: string)

  function SettingsOf(env: Env): (s: Settings)
    ensures env == Env(None, None, None, None) ==>
      s == Settings("admin@bbdiscos.com", "admin123", "Admin", "BB Discos")
  {
    Settings(EnvOr(env.email, "admin@bbdiscos.com"), EnvOr(env.password, "admin123"),
             EnvOr(env.firstName, "Admin"), EnvOr(env.lastName, "BB Discos"))
  }

  /** The first user with exactly this email (no lower-casing). */
  function FindEmail(users: seq<User>, email: string): (r: Option<User>)
    ensures r.Some? ==> r.value in users && r.value.email == email
    ensures r.None? <==> forall u :: u in users ==> u.email != email
  {
    if users == [] then None
    else if users[0].email == email then Some(users[0])
    else FindEmail(users[1..], email)
  }

  /** `UPDATE users SET role = 'admin' WHERE email = $1`: every user with
      that email becomes admin; nothing else changes. */
  function Promote(users: seq<User>, email: string): (r: seq<User>)
    ensures |r| == |users|
    ensures forall k :: 0 <= k < |users| ==>
      r[k] == if users[k].email == email then users[k].(role := "admin") else users[k]
  {
    seq(|users|, k requires 0 <= k < |users| =>
      if users[k].email == email then users[k].(role := "admin") else users[k])
  }

  /** The inserted administrator; it is active by the column's default and
      has no phone. */
  function NewAdmin(id: int, s: Settings, hash: string -> string): (u: User)
    ensures u.email == s.email && u.role == "admin" && u.isActive && u.passwordHash == hash(s.password)
  {
    User(id, s.email, hash(s.password), Some(s.firstName), Some(s.lastName), None, "admin", true)
  }

  /** What the run reports. */
  datatype Outcome = AlreadyAdmin | Promoted | Created(id: int)

  /** The users table after a run that starts from `users` with `id` as the
      next key. */
  function Run(users: seq<User>, id: int, s: Settings, hash: string -> string): seq<User> {
    match FindEmail(users, s.email)
    case Some(u) => if u.role == "admin" then users else Promote(users, s.email)
    case None => users + [NewAdmin(id, s, hash)]
  }

  /** `createAdmin`. */
  method CreateAdminUser(db: Database, env: Env, hash: string -> string) returns (o: Outcome)
    modifies db`users, db`nextId
    ensures db.users == Run(old(db.users), old(db.nextId), SettingsOf(env), hash)
    ensures var found := FindEmail(old(db.users), SettingsOf(env).email);
      && (found.Some? && found.value.role == "admin" <==> o.AlreadyAdmin?)
      && (found.Some? && found.value.role != "admin" <==> o.Promoted?)
      && (found.None? <==> o == Created(old(db.nextId)))
    ensures o.Created? <==> db.nextId == old(db.nextId) + 1
    ensures !o.Created? ==> db.nextId == old(db.nextId)
  {
    var s := SettingsOf(env);
    var existing := FindEmail(db.users, s.email);
    if existing.Some? {
      if existing.value.role == "admin" {
        return AlreadyAdmin;
      }
      db.users := Promote(db.users, s.email);
      return Promoted;
    }
    var id := db.FreshId();
    db.users := db.users + [NewAdmin(id, s, hash)];
    o := Created(id);
  }

  /** An existing administrator is left alone. */
  lemma AdminUnchanged(users: seq<User>, id: int, s: Settings, hash: string -> string)
    requires FindEmail(users, s.email).Some? && FindEmail(users, s.email).value.role == "admin"
    ensures Run(users, id, s, hash) == users
  {
  }

  /** Promotion changes only the role, and only of users with that email. */
  lemma PromotionChangesOnlyRole(users: seq<User>, id: int, s: Settings, hash: string -> string)
    requires FindEmail(users, s.email).Some? && FindEmail(users, s.email).value.role != "admin"
    ensures var r := Run(users, id, s, hash);
      |r| == |users|
      && forall k :: 0 <= k < |users| ==>
        r[k].(role := users[k].role) == users[k] && (users[k].email != s.email ==> r[k] == users[k])
  {
  }

  /** After any run the first user with the email is an administrator. */
  lemma {:induction false} RunMakesAdmin(users: seq<User>, id: int, s: Settings, hash: string -> string)
    ensures FindEmail(Run(users, id, s, hash), s.email).Some?
    ensures FindEmail(Run(users, id, s, hash), s.email).value.role == "admin"
  {
    match FindEmail(users, s.email)
    case Some(u) =>
      if u.role != "admin" {
        PromotedFirstIsAdmin(users, s.email);
      }
    case None =>
      FindEmailAppended(users, NewAdmin(id, s, hash));
  }

  lemma {:induction false} PromotedFirstIsAdmin(users: seq<User>, email: string)
    requires FindEmail(users, email).Some?
    ensures FindEmail(Promote(users, email), email).Some?
    ensures FindEmail(Promote(users, email), email).value.role == "admin"
  {
    if users[0].email != email {
      assert Promote(users, email)[1..] == Promote(users[1..], email);
      PromotedFirstIsAdmin(users[1..], email);
    }
  }

  lemma {:induction false} FindEmailAppended(users: seq<User>, u: User)
    requires FindEmail(users, u.email).None?
    ensures FindEmail(users + [u], u.email) == Some(u)
  {
    if users != [] {
      assert (users + [u])[1..] == users[1..] + [u];
      FindEmailAppended(users[1..], u);
    }
  }

  /** Running the script a second time changes nothing. */
  lemma Idempotent(users: seq<User>, id1: int, id2: int, s: Settings, hash: string -> string)
    ensures Run(Run(users, id1, s, hash), id2, s, hash) == Run(users, id1, s, hash)
  {
    RunMakesAdmin(users, id1, s, hash);
  }

  /** A run keeps emails unique: promotion keeps every email, and the
      insert happens only when no user has the email. */
  lemma RunKeepsUnique(users: seq<User>, id: int, s: Settings, hash: string -> string)
    requires AuthRoutes.UniqueEmails(users)
    ensures AuthRoutes.UniqueEmails(Run(users, id, s, hash))
  {
    var r := Run(users, id, s, hash);
    match FindEmail(users, s.email)
    case Some(u) =>
      assert forall i :: 0 <= i < |r| ==> r[i].email == users[i].email;
    case None =>
      AuthRoutes.RegisterKeepsEmailsUnique(users, NewAdmin(id, s, hash));
  }

  lemma OnlyOneWithEmail(r: seq<User>, k: nat)
    requires AuthRoutes.UniqueEmails(r) && k < |r|
    ensures forall j :: 0 <= j < |r| && j != k ==> r[j].email != r[k].email
  {
    forall j | 0 <= j < |r| && j != k ensures r[j].email != r[k].email {
      if j < k { assert r[j].email != r[k].email; } else { assert r[k].email != r[j].email; }
    }
  }

  /** With unique emails, a run leaves exactly one user with the email, and
      it is an administrator. */
  lemma ExactlyOneAdmin(users: seq<User>, id: int, s: Settings, hash: string -> string)
    requires AuthRoutes.UniqueEmails(users)
    ensures var r := Run(users, id, s, hash);
      && AuthRoutes.UniqueEmails(r)
      && exists k :: (0 <= k < |r| && r[k].email == s.email && r[k].role == "admin"
        && forall j :: 0 <= j < |r| && j != k ==> r[j].email != s.email)
  {
    var r := Run(users, id, s, hash);
    RunMakesAdmin(users, id, s, hash);
    RunKeepsUnique(users, id, s, hash);
    var a := FindEmail(r, s.email).value;
    var k :| 0 <= k < |r| && r[k] == a;
    OnlyOneWithEmail(r, k);
  }
}
