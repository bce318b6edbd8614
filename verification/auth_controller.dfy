/**
 * `signup`, `login` and `me` over the users collection. Hashing is the
 * relation `matches(password, hash)` that `bcrypt.compare` decides, and the
 * hash signup stores is an input; `jwt.sign` is the function `sign` from the
 * claims of a token to its text.
 */
module AuthController {
  import opened Wrappers
  import opened Clock
  import opened UserModel

  /** The payload and registered claims of a session token. */
  datatype Claims = Claims(id: UserId, iat: int, exp: int)

  /** Lifetime of a token, `expiresIn: "1d"`, in seconds. */
  const TokenLifetime: int := 86400

  /** `createToken(userId)`: a token for the id, issued now (in whole
      seconds) and expiring one day later. */
  function CreateToken(id: UserId, now: Instant): (c: Claims)
    ensures c.id == id
    ensures c.iat * 1000 <= now < c.iat * 1000 + 1000
    ensures c.exp == c.iat + TokenLifetime
  {
    Claims(id, now / 1000, now / 1000 + TokenLifetime)
  }

  /** The user object of a reply; the plan only where a handler includes
      it. */
  datatype Profile = Profile(email: string, dailyCount: nat, lastResetDate: Option<Instant>, plan: Option<string>)

  datatype AuthReply =
    | Refused(status: nat, message: string)
    | Issued(status: nat, token: string, user: Profile)

  /** The `user` object of the signup and login replies. */
  function ProfileOf(u: User): (p: Profile)
    ensures p.email == u.email && p.dailyCount == u.dailyCount
    ensures p.lastResetDate == u.lastResetDate && p.plan.None?
  {
    Profile(u.email, u.dailyCount, u.lastResetDate, None)
  }

  const MissingCredentials: string := "Email and password are required"

  datatype SignupResult = SignupResult(reply: AuthReply, store: Store)

  /** `signup`. The record gets the fresh id `newId` the database assigns and
      the hash `hash` bcrypt computes. An address that is blank once trimmed
      is truthy in the handler but fails the schema's `required` validator
      on save, which the handler reports as a server error. */
  function Signup(store: Store, email: Option<string>, password: Option<string>,
                  hash: string, newId: UserId, now: Instant, sign: Claims -> string): (r: SignupResult)
    requires newId != "" && FindById(store, newId).None?
    requires hash != ""
    ensures r.reply.Refused? ==> r.store == store
    ensures r.reply.Refused? && r.reply.status == 400 <==> !Present(email) || !Present(password)
    ensures r.reply.Refused? && r.reply.status == 400 ==> r.reply.message == MissingCredentials
    ensures r.reply.Refused? && r.reply.status == 409 <==>
      Present(email) && Present(password) && FindByEmail(store, email.value).Some?
    ensures r.reply.Refused? ==> r.reply.status in {400, 409, 500}
    ensures r.reply.Issued? <==>
      Present(email) && Present(password) && FindByEmail(store, email.value).None?
      && NormalizeEmail(email.value) != ""
    ensures r.reply.Issued? ==>
      && |r.store| == |store| + 1 && r.store[..|store|] == store
      && var u := r.store[|store|];
      && u.id == newId && u.email == NormalizeEmail(email.value) && u.passwordHash == hash
      && u.dailyCount == 0 && u.lastResetDate == Some(now)
      && ParsePlan(u.plan) == Some(Free) && u.stripeCustomerId.None?
      && r.reply.status == 201
      && r.reply.token == sign(CreateToken(newId, now))
      && r.reply.user == ProfileOf(u)
  {
    if !Present(email) || !Present(password) then
      SignupResult(Refused(400, MissingCredentials), store)
    else if FindByEmail(store, email.value).Some? then
      SignupResult(Refused(409, "Email already exists"), store)
    else
      var u := NewUser(newId, email.value, hash, now);
      if u.email == "" then SignupResult(Refused(500, "Server error"), store)
      else
        var r := store + [u];
        assert r[..|store|] == store;
        SignupResult(Issued(201, sign(CreateToken(u.id, now)), ProfileOf(u)), r)
  }

  /** `login`: a token for the stored user whose hash matches the password.
      An unknown address and a wrong password get the same reply. The
      collection is only read. */
  function Login(store: Store, email: Option<string>, password: Option<string>,
                 matches: (string, string) -> bool, now: Instant, sign: Claims -> string): (r: AuthReply)
    ensures r.Refused? && r.status == 400 <==> !Present(email) || !Present(password)
    ensures r.Refused? && r.status == 400 ==> r.message == MissingCredentials
    ensures r.Refused? && r.status != 400 ==> r.status == 401 && r.message == "Invalid credentials"
    ensures r.Issued? <==>
      && Present(email) && Present(password)
      && FindByEmail(store, email.value).Some?
      && matches(password.value, FindByEmail(store, email.value).value.passwordHash)
    ensures r.Issued? ==>
      var u := FindByEmail(store, email.value).value;
      r.status == 200 && r.token == sign(CreateToken(u.id, now)) && r.user == ProfileOf(u)
  {
    if !Present(email) || !Present(password) then Refused(400, MissingCredentials)
    else match FindByEmail(store, email.value)
      case None => Refused(401, "Invalid credentials")
      case Some(u) =>
        if !matches(password.value, u.passwordHash) then Refused(401, "Invalid credentials")
        else Issued(200, sign(CreateToken(u.id, now)), ProfileOf(u))
  }

  /** `me`, as written: the address, the count and the reset date of the
      authenticated user, and no plan. */
  function Me(u: User): (p: Profile)
    ensures p.email == u.email && p.dailyCount == u.dailyCount && p.lastResetDate == u.lastResetDate
    ensures p.plan.None?
  {
    ProfileOf(u)
  }

  /** `me` as its client reads it: the same profile, with the plan. */
  function MeWithPlan(u: User): (p: Profile)
    ensures p.email == u.email && p.dailyCount == u.dailyCount && p.lastResetDate == u.lastResetDate
    ensures p.plan == Some(u.plan)
  {
    Profile(u.email, u.dailyCount, u.lastResetDate, Some(u.plan))
  }

  /** Signup keeps the collection valid. */
  lemma SignupKeepsStoreValid(store: Store, email: Option<string>, password: Option<string>,
                              hash: string, newId: UserId, now: Instant, sign: Claims -> string)
    requires newId != "" && FindById(store, newId).None? && hash != ""
    requires StoreValid(store)
    ensures StoreValid(Signup(store, email, password, hash, newId, now, sign).store)
  {
    var r := Signup(store, email, password, hash, newId, now, sign);
    if r.reply.Issued? {
      var u := NewUser(newId, email.value, hash, now);
      assert r.store == store + [u];
      InsertKeepsStoreValid(store, u);
    }
  }

  /** The account signup creates can log in with the same address and
      password, and gets a token for the new id. */
  lemma SignupThenLogin(store: Store, email: Option<string>, password: Option<string>,
                        hash: string, newId: UserId, now: Instant, later: Instant,
                        matches: (string, string) -> bool, sign: Claims -> string)
    requires newId != "" && FindById(store, newId).None? && hash != ""
    requires Present(password) ==> matches(password.value, hash)
    requires Signup(store, email, password, hash, newId, now, sign).reply.Issued?
    ensures var s := Signup(store, email, password, hash, newId, now, sign).store;
      var l := Login(s, email, password, matches, later, sign);
      l.Issued? && l.token == sign(CreateToken(newId, later)) && l.user.email == NormalizeEmail(email.value)
  {
    var u := NewUser(newId, email.value, hash, now);
    FindByEmailAppend(store, u, email.value);
  }

  /** A second signup with the same address is a conflict. */
  lemma SignupTwiceConflicts(store: Store, email: Option<string>, password: Option<string>,
                             hash: string, newId: UserId, otherId: UserId, now: Instant, later: Instant,
                             password2: Option<string>, sign: Claims -> string)
    requires newId != "" && FindById(store, newId).None? && hash != ""
    requires Signup(store, email, password, hash, newId, now, sign).reply.Issued?
    requires Present(password2)
    requires var s := Signup(store, email, password, hash, newId, now, sign).store;
      otherId != "" && FindById(s, otherId).None?
    ensures var s := Signup(store, email, password, hash, newId, now, sign).store;
      Signup(s, email, password2, hash, otherId, later, sign).reply == Refused(409, "Email already exists")
  {
    var u := NewUser(newId, email.value, hash, now);
    FindByEmailAppend(store, u, email.value);
  }
}
