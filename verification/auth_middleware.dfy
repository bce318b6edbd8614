/**
 * `authMiddleware`: the Authorization header, the token taken from it, the
 * verification of the token (the function `verify`, which stands for
 * `jwt.verify` with the server's secret and clock and answers the claims of
 * a valid, unexpired token) and the lookup of the user it names. Every
 * failure is a 401 and only a found user reaches the handler.
 */
module AuthMiddleware {
  import opened Wrappers
  import opened Strings
  import opened Clock
  import opened UserModel
  import opened AuthController

  const BearerPrefix: string := "Bearer "

  /** The token of a header: for `"Bearer <rest>"` the second space-separated
      segment, that is the part of `<rest>` before its first space;
      otherwise the whole header. */
  function ExtractToken(header: string): (t: string)
    ensures !StartsWith(header, BearerPrefix) ==> t == header
    ensures StartsWith(header, BearerPrefix) ==>
      var rest := header[|BearerPrefix|..];
      StartsWith(rest, t) && ' ' !in t && (|t| == |rest| || rest[|t|] == ' ')
  {
    if StartsWith(header, BearerPrefix) then
      BearerSplit(header);
      SplitHead(header[|BearerPrefix|..], ' ');
      Split(header, ' ')[1]
    else header
  }

  lemma BearerSplit(header: string)
    requires StartsWith(header, BearerPrefix)
    ensures |Split(header, ' ')| >= 2
    ensures Split(header, ' ')[1] == Split(header[|BearerPrefix|..], ' ')[0]
  {
    var rest := header[|BearerPrefix|..];
    assert BearerPrefix == "Bearer" + [' '];
    assert header == "Bearer" + [' '] + rest;
    assert ' ' !in "Bearer";
    SplitAfterPiece("Bearer", rest, ' ');
  }

  /** A space-free token sent as `"Bearer <token>"` is extracted whole. */
  lemma ExtractBearer(token: string)
    requires ' ' !in token
    ensures ExtractToken(BearerPrefix + token) == token
  {
    var h := BearerPrefix + token;
    assert h[..|BearerPrefix|] == BearerPrefix;
    assert h[|BearerPrefix|..] == token;
  }

  datatype AuthOutcome = Rejected(message: string) | Authenticated(user: User) {
    /** The status of the reply; an authenticated request goes on. */
    function Status(): nat {
      if Rejected? then 401 else 200
    }
  }

  const HeaderMissing: string := "Authorization header missing"
  const NoToken: string := "No token provided"
  const BadToken: string := "Invalid or expired token"
  const UnknownUser: string := "Invalid token: user not found"

  /** The 401 ladder: no header, no token, a token that does not verify, a
      verified id with no user; otherwise the request goes on with the
      user. */
  function Authenticate(store: Store, header: Option<string>, verify: string -> Option<Claims>): (r: AuthOutcome)
    ensures r == Rejected(HeaderMissing) <==> !Present(header)
    ensures r == Rejected(NoToken) <==> Present(header) && ExtractToken(header.value) == ""
    ensures r == Rejected(BadToken) <==>
      Present(header) && ExtractToken(header.value) != "" && verify(ExtractToken(header.value)).None?
    ensures r == Rejected(UnknownUser) <==>
      && Present(header) && ExtractToken(header.value) != ""
      && verify(ExtractToken(header.value)).Some?
      && FindById(store, verify(ExtractToken(header.value)).value.id).None?
    ensures r.Rejected? ==> r.message in {HeaderMissing, NoToken, BadToken, UnknownUser}
    ensures r.Authenticated? ==>
      && r.user in store
      && verify(ExtractToken(header.value)).Some?
      && r.user.id == verify(ExtractToken(header.value)).value.id
  {
    if !Present(header) then Rejected(HeaderMissing)
    else
      var token := ExtractToken(header.value);
      if token == "" then Rejected(NoToken)
      else match verify(token)
        case None => Rejected(BadToken)
        case Some(claims) =>
          match FindById(store, claims.id)
          case None => Rejected(UnknownUser)
          case Some(u) => Authenticated(u)
  }

  /** A stored user presenting, as a bearer token, a space-free token that
      verifies to their id is authenticated as themselves. */
  lemma BearerAuthenticates(store: Store, u: User, token: string, verify: string -> Option<Claims>)
    requires FindById(store, u.id) == Some(u)
    requires token != "" && ' ' !in token
    requires verify(token).Some? && verify(token).value.id == u.id
    ensures Authenticate(store, Some(BearerPrefix + token), verify) == Authenticated(u)
  {
    ExtractBearer(token);
  }

  /** The token signup issues authenticates the new account, provided that
      the token text is space-free and verifies to the claims it was signed
      from. */
  lemma SignupThenAuthenticate(store: Store, email: Option<string>, password: Option<string>,
                               hash: string, newId: UserId, now: Instant,
                               sign: Claims -> string, verify: string -> Option<Claims>)
    requires newId != "" && FindById(store, newId).None? && hash != ""
    requires Signup(store, email, password, hash, newId, now, sign).reply.Issued?
    requires var c := CreateToken(newId, now); sign(c) != "" && ' ' !in sign(c) && verify(sign(c)) == Some(c)
    ensures var r := Signup(store, email, password, hash, newId, now, sign);
      var a := Authenticate(r.store, Some(BearerPrefix + r.reply.token), verify);
      a.Authenticated? && a.user == r.store[|store|] && a.user.id == newId
  {
    var r := Signup(store, email, password, hash, newId, now, sign);
    var u := r.store[|store|];
    assert r.store == store + [u];
    FindByIdAppend(store, u);
    BearerAuthenticates(r.store, u, r.reply.token, verify);
  }
}
