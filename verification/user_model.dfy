/**
 * The one persisted entity, the User record of the Mongoose schema, and the
 * collection that holds the records. The plan is kept as the string the
 * application reads from the record; `Valid` states what the schema's
 * validators and setters guarantee of a saved record.
 */
module UserModel {
  import opened Wrappers
  import opened Strings
  import opened Clock

  /** The subscription tiers of the schema's `plan` enum. */
  datatype Plan = Free | Premium | PremiumPlus

  function PlanName(p: Plan): string {
    match p
    case Free => "free"
    case Premium => "premium"
    case PremiumPlus => "premiumPlus"
  }

  /** The enum value a plan string names, if it names one. */
  function ParsePlan(s: string): Option<Plan> {
    if s == "free" then Some(Free)
    else if s == "premium" then Some(Premium)
    else if s == "premiumPlus" then Some(PremiumPlus)
    else None
  }

  lemma ParsePlanName(p: Plan, s: string)
    ensures ParsePlan(PlanName(p)) == Some(p)
    ensures ParsePlan(s) == Some(p) <==> s == PlanName(p)
  {
  }

  /** A daily query allowance; JavaScript's `Infinity` is `Unbounded`. */
  datatype Limit = Bounded(n: nat) | Unbounded

  /** The daily allowance of each plan. */
  function PlanLimit(p: Plan): Limit {
    match p
    case Free => Bounded(10)
    case Premium => Bounded(50)
    case PremiumPlus => Unbounded
  }

  /** The string form of a record's `_id` (a Mongo ObjectId). */
  type UserId = string

  datatype User = User(
    id: UserId,
    email: string,
    passwordHash: string,
    dailyCount: nat,
    lastResetDate: Option<Instant>,
    plan: string,
    stripeCustomerId: Option<string>)

  /** The schema's setters on `email`: `lowercase` and then `trim`. */
  function NormalizeEmail(e: string): string {
    Trim(Lower(e))
  }

  /** An address the setters leave alone: no surrounding whitespace and no
      upper-case ASCII letter. */
  predicate InNormalForm(e: string) {
    && (e == [] || (!IsWhitespace(e[0]) && !IsWhitespace(e[|e| - 1])))
    && forall i :: 0 <= i < |e| ==> !('A' <= e[i] <= 'Z')
  }

  /** The setters always produce an address in normal form. */
  lemma NormalizedIsNormal(e: string)
    ensures InNormalForm(NormalizeEmail(e))
  {
    var l := Lower(e);
    var t := TrimStart(l);
    var y := TrimEnd(t);
    assert y == NormalizeEmail(e);
    forall i | 0 <= i < |y|
      ensures !('A' <= y[i] <= 'Z')
    {
      var k := |l| - |t| + i;
      assert y[i] == t[i] == l[k];
      LowerCharNotUpper(e[k]);
    }
  }

  lemma LowerCharNotUpper(c: char)
    ensures !('A' <= LowerChar(c) <= 'Z')
  {
  }

  /** An address in normal form is its own normalisation. */
  lemma NormalFormIsFixed(e: string)
    requires InNormalForm(e)
    ensures NormalizeEmail(e) == e
  {
    assert Lower(e) == e;
    if e != [] {
      assert "" + e + "" == e;
      TrimPadded("", e, "");
    }
  }

  /** Normalising a normalised address changes nothing. */
  lemma NormalizeEmailIdempotent(e: string)
    ensures NormalizeEmail(NormalizeEmail(e)) == NormalizeEmail(e)
  {
    NormalizedIsNormal(e);
    NormalFormIsFixed(NormalizeEmail(e));
  }

  /** What the schema guarantees of a saved record: a non-empty email in
      normal form (required, lowercase, trim), a non-empty password hash
      (required) and a plan inside the enum. */
  predicate Valid(u: User) {
    && u.id != ""
    && u.email != ""
    && InNormalForm(u.email)
    && u.passwordHash != ""
    && ParsePlan(u.plan).Some?
  }

  /** A record built by `new User({email, passwordHash, dailyCount: 0,
      lastResetDate: now})`, with the schema defaults for `plan` and
      `stripeCustomerId`. */
  function NewUser(id: UserId, email: string, passwordHash: string, now: Instant): (u: User)
    ensures u.email == NormalizeEmail(email)
    ensures u.dailyCount == 0 && u.lastResetDate == Some(now)
    ensures ParsePlan(u.plan) == Some(Free) && u.stripeCustomerId.None?
    ensures id != "" && NormalizeEmail(email) != "" && passwordHash != "" ==> Valid(u)
  {
    NormalizedIsNormal(email);
    User(id, NormalizeEmail(email), passwordHash, 0, Some(now), PlanName(Free), None)
  }

  /** The users collection. */
  type Store = seq<User>

  /** Position of the first record satisfying `p`. */
  function FindIndex(users: Store, p: User -> bool): (r: Option<nat>)
    ensures r.Some? ==> r.value < |users| && p(users[r.value])
    ensures r.Some? ==> forall j :: 0 <= j < r.value ==> !p(users[j])
    ensures r.None? ==> forall j :: 0 <= j < |users| ==> !p(users[j])
    decreases |users|
  {
    if |users| == 0 then None
    else if p(users[0]) then Some(0)
    else match FindIndex(users[1..], p)
      case None => None
      case Some(i) => Some(i + 1)
  }

  /** Two positions that are both the first match are the same position. */
  lemma FirstMatchUnique(users: Store, p: User -> bool, i: nat)
    requires i < |users| && p(users[i])
    requires forall j :: 0 <= j < i ==> !p(users[j])
    ensures FindIndex(users, p) == Some(i)
  {
  }

  function HasEmail(email: string): User -> bool {
    (u: User) => u.email == email
  }

  function HasId(id: UserId): User -> bool {
    (u: User) => u.id == id
  }

  /** `User.findOne({ email })`; the query value goes through the same
      setters as a stored address. */
  function FindByEmail(users: Store, email: string): (r: Option<User>)
    ensures r.Some? ==> r.value in users && r.value.email == NormalizeEmail(email)
    ensures r.None? ==> forall u :: u in users ==> u.email != NormalizeEmail(email)
  {
    match FindIndex(users, HasEmail(NormalizeEmail(email)))
    case None => None
    case Some(i) => Some(users[i])
  }

  /** `User.findById(id)`. */
  function FindById(users: Store, id: UserId): (r: Option<User>)
    ensures r.Some? ==> r.value in users && r.value.id == id
    ensures r.None? ==> forall u :: u in users ==> u.id != id
  {
    match FindIndex(users, HasId(id))
    case None => None
    case Some(i) => Some(users[i])
  }

  /** `user.save()` on a record loaded from the collection: the record with
      the same id is replaced. */
  function Save(users: Store, u: User): (r: Store)
    ensures |r| == |users|
    ensures FindById(users, u.id).None? ==> r == users
    ensures FindById(users, u.id).Some? ==> FindById(r, u.id) == Some(u)
    ensures forall id :: id != u.id ==> FindById(r, id) == FindById(users, id)
  {
    match FindIndex(users, HasId(u.id))
    case None => users
    case Some(i) =>
      var r := users[i := u];
      FirstMatchUnique(r, HasId(u.id), i);
      SaveLeavesOthers(users, u, i);
      r
  }

  lemma SaveLeavesOthers(users: Store, u: User, i: nat)
    requires i < |users| && users[i].id == u.id
    ensures forall id :: id != u.id ==> FindById(users[i := u], id) == FindById(users, id)
  {
    var r := users[i := u];
    forall id | id != u.id
      ensures FindById(r, id) == FindById(users, id)
    {
      var a := FindIndex(users, HasId(id));
      if a.Some? {
        FirstMatchUnique(r, HasId(id), a.value);
      } else {
        assert forall j :: 0 <= j < |r| ==> !HasId(id)(r[j]);
      }
    }
  }

  /** Saving a record back unchanged leaves the collection as it was. */
  lemma SaveUnchanged(users: Store, u: User)
    requires FindById(users, u.id) == Some(u)
    ensures Save(users, u) == users
  {
  }

  /** The collection-wide guarantees: every record valid, addresses unique
      (the schema's `unique` index) and ids unique. */
  predicate StoreValid(users: Store) {
    && (forall i :: 0 <= i < |users| ==> Valid(users[i]))
    && (forall i, j :: 0 <= i < j < |users| ==> users[i].email != users[j].email)
    && (forall i, j :: 0 <= i < j < |users| ==> users[i].id != users[j].id)
  }

  /** Saving a valid record whose id and address are already stored keeps
      the collection valid. */
  lemma SaveKeepsStoreValid(users: Store, u: User)
    requires StoreValid(users) && Valid(u)
    requires FindById(users, u.id).Some? && FindById(users, u.id).value.email == u.email
    ensures StoreValid(Save(users, u))
  {
    var i := FindIndex(users, HasId(u.id)).value;
    assert Save(users, u) == users[i := u];
  }

  /** Adding a valid record with a fresh address and a fresh id keeps the
      collection valid. */
  lemma InsertKeepsStoreValid(users: Store, u: User)
    requires StoreValid(users) && Valid(u)
    requires FindById(users, u.id).None?
    requires forall v :: v in users ==> v.email != u.email
    ensures StoreValid(users + [u])
  {
    var r := users + [u];
    forall i, j | 0 <= i < j < |r|
      ensures r[i].email != r[j].email && r[i].id != r[j].id
    {
      if j == |users| {
        assert r[i] in users;
      }
    }
  }

  /** A record appended after a collection without a match is the first
      match for its address. */
  lemma FindByEmailAppend(users: Store, u: User, email: string)
    requires FindByEmail(users, email).None? && u.email == NormalizeEmail(email)
    ensures FindByEmail(users + [u], email) == Some(u)
  {
    var r := users + [u];
    forall j | 0 <= j < |users|
      ensures !HasEmail(NormalizeEmail(email))(r[j])
    {
      assert r[j] in users;
    }
    FirstMatchUnique(r, HasEmail(NormalizeEmail(email)), |users|);
  }

  /** Likewise for the id. */
  lemma FindByIdAppend(users: Store, u: User)
    requires FindById(users, u.id).None?
    ensures FindById(users + [u], u.id) == Some(u)
  {
    var r := users + [u];
    forall j | 0 <= j < |users|
      ensures !HasId(u.id)(r[j])
    {
      assert r[j] in users;
    }
    FirstMatchUnique(r, HasId(u.id), |users|);
  }
}
