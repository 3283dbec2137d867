/**
 The registration-token handlers of the user resource, as pure functions from
 (state, clock, request, collaborator outcomes) to (response, new state).

 The durable state is a token store mapping each issued token to its `used`
 flag, and a user store keyed by email. The mail sender, the token insert and
 the user-store writes are collaborators that may fail; their outcomes are
 passed in as booleans. The clock is a parameter `now` in whole seconds.
 */
module UserResource {
  import opened Wrappers
  import opened TokenCodec

  /** Seven days in seconds: how long an issued token stays valid. */
  const TokenLifetime: nat := 7 * 24 * 60 * 60

  type Token = string

  /** token -> used */
  type TokenStore = map<Token, bool>

  /** A user record as the handlers create it. Fields read from a request
      body with `.get` are optional. */
  datatype User = User(
    firstName: Option<string>,
    lastName: Option<string>,
    email: string,
    password: Option<string>,
    roles: seq<string>)

  /** Users keyed by their email address. */
  type UserStore = map<string, User>

  datatype State = State(tokens: TokenStore, users: UserStore)

  /** The fixed messages of the handlers; `ErrorText` stands for the text of
      a caught exception and `Unhandled` for an exception no handler catches,
      which the web framework answers with status 500. `Bare` marks a body
      that is the data alone. */
  datatype Message =
    | TokenCreated
    | TokenAlreadyUsed
    | TokenExpired
    | TokenValid
    | TokenUnknown
    | TokenUnknownOnRegister
    | TokenAlreadyRegistered
    | UserRegistered
    | UserUnknown
    | UserUpdated
    | UserDeleted
    | Bare
    | ErrorText
    | Unhandled

  datatype Payload =
    | Empty
    | TokenData(token: Token)
    | ClaimsData(claims: Claims)
    | UserData(user: User)

  datatype Response = Response(status: nat, message: Message, data: Payload)

  /** The body of a token request; either key may be missing. */
  datatype TokenRequest = TokenRequest(email: Option<string>, role: Option<string>)

  /** The body of a registration request. */
  datatype RegistrationForm = RegistrationForm(
    firstName: Option<string>,
    lastName: Option<string>,
    password: Option<string>)

  /** Outcomes of the collaborators `Issue` calls: the token insert and the
      invitation mail. */
  datatype IssueEffects = IssueEffects(stored: bool, mailed: bool)

  /** Outcomes of the collaborators `Register` calls: the user insert and the
      write that marks the token used. */
  datatype RegisterEffects = RegisterEffects(userCreated: bool, tokenUpdated: bool)

  function Failure(status: nat, message: Message): (r: Response) {
    Response(status, message, Empty)
  }

  /** `token` is in the store and not yet used. */
  predicate Unused(tokens: TokenStore, token: Token) {
    token in tokens && !tokens[token]
  }

  /** `token` is in the store and already used. */
  predicate Used(tokens: TokenStore, token: Token) {
    token in tokens && tokens[token]
  }

  /** The claims `Issue` signs for a complete request at time `now`. */
  function RequestedClaims(req: TokenRequest, now: nat): (c: Claims)
    requires req.email.Some? && req.role.Some?
  {
    Claims(req.email.value, req.role.value, now + TokenLifetime)
  }

  /**
   Issue a registration token: sign the requested email and role with an
   expiry one week from `now`, store the token unused, then mail it. Any
   failure answers 409 with empty data; a mail failure comes after the token
   was stored, so the token stays in the store, unused.
   */
  function Issue(st: State, now: nat, req: TokenRequest, fx: IssueEffects): (out: (Response, State))
    ensures out.0.status == 201 || out.0.status == 409
    ensures out.0.status == 409 ==> out.0.data == Empty
    ensures out.1.users == st.users
    ensures out.0.status == 201 ==>
      && req.email.Some? && req.role.Some? && fx.stored && fx.mailed
      && out.0.data.TokenData?
      && var t := out.0.data.token;
      && Decode(t) == Some(Claims(req.email.value, req.role.value, now + TokenLifetime))
      && t !in st.tokens
      && out.1.tokens == st.tokens[t := false]
    ensures req.email.None? || req.role.None? || !fx.stored ==>
      out.0.status == 409 && out.1 == st
    ensures req.email.Some? && req.role.Some? && fx.stored ==>
      var t := Encode(RequestedClaims(req, now));
      && (t in st.tokens ==> out.0.status == 409 && out.1 == st)
      && (t !in st.tokens ==> out.1.tokens == st.tokens[t := false])
      && (t !in st.tokens ==> (out.0.status == 201 <==> fx.mailed))
    ensures out.1.tokens.Keys >= st.tokens.Keys
    ensures forall t :: t in st.tokens ==> out.1.tokens[t] == st.tokens[t]
  {
    if req.email.None? || req.role.None? then
      (Failure(409, ErrorText), st)
    else
      var claims := RequestedClaims(req, now);
      var token := Encode(claims);
      DecodeEncode(claims);
      if !fx.stored || token in st.tokens then
        (Failure(409, ErrorText), st)
      else
        var st' := st.(tokens := st.tokens[token := false]);
        if !fx.mailed then
          (Failure(409, ErrorText), st')
        else
          (Response(201, TokenCreated, TokenData(token)), st')
  }

  /**
   Check a token without changing anything: the used flag first, then the
   decode, then the expiry. A token past its expiry is rejected only when
   `exp < now`; a used token is reported as used whatever its expiry.
   */
  function Validate(st: State, now: nat, token: Token): (r: Response)
    ensures r.status in {200, 400, 404, 500}
    ensures r.status == 404 <==> token !in st.tokens
    ensures r.status == 404 ==> r.message == TokenUnknown
    ensures Used(st.tokens, token) ==> r.status == 400 && r.message == TokenAlreadyUsed
    ensures r.status == 500 <==> Unused(st.tokens, token) && Decode(token).None?
    ensures r.status == 200 <==>
      Unused(st.tokens, token) && Decode(token).Some? && now <= Decode(token).value.exp
    ensures r.status == 400 && r.message == TokenExpired <==>
      Unused(st.tokens, token) && Decode(token).Some? && Decode(token).value.exp < now
    ensures r.status == 200 ==> r.message == TokenValid && r.data == ClaimsData(Decode(token).value)
    ensures r.status != 200 ==> r.data == Empty
  {
    if token !in st.tokens then
      Failure(404, TokenUnknown)
    else if st.tokens[token] then
      Failure(400, TokenAlreadyUsed)
    else
      match Decode(token)
      case None => Failure(500, Unhandled)
      case Some(payload) =>
        if payload.exp < now then Failure(400, TokenExpired)
        else Response(200, TokenValid, ClaimsData(payload))
  }

  /** The user `Register` creates: email and role from the token, the rest
      from the form. */
  function NewUser(c: Claims, form: RegistrationForm): (u: User) {
    User(form.firstName, form.lastName, c.email, form.password, [c.role])
  }

  /**
   Register a user with a token: check the used flag, decode the token,
   create the user from the token's email and role, and only then mark the
   token used. An unknown token answers 404 and every other failure 400.
   */
  function Register(st: State, token: Token, form: RegistrationForm, fx: RegisterEffects): (out: (Response, State))
    ensures out.0.status in {201, 400, 404}
    ensures out.0.status != 201 ==> out.0.data == Empty
    ensures out.0.status == 404 <==> token !in st.tokens
    ensures token !in st.tokens ==> out.1 == st && out.0.message == TokenUnknownOnRegister
    ensures Used(st.tokens, token) ==>
      out.0.status == 400 && out.0.message == TokenAlreadyRegistered && out.1 == st
    ensures out.0.status == 201 ==>
      && Unused(st.tokens, token)
      && Decode(token).Some?
      && var c := Decode(token).value;
      && out.0.data.UserData?
      && var u := out.0.data.user;
      && u.email == c.email && u.roles == [c.role]
      && u.firstName == form.firstName && u.lastName == form.lastName
      && u.password == form.password
      && c.email !in st.users
      && out.1.users == st.users[c.email := u]
      && out.1.tokens == st.tokens[token := true]
    ensures out.0.status != 201 ==> out.1.tokens == st.tokens
    ensures out.1.users != st.users ==>
      Unused(st.tokens, token) && Decode(token).Some? && fx.userCreated
      && out.1.users == st.users[Decode(token).value.email := NewUser(Decode(token).value, form)]
    ensures Unused(st.tokens, token) && Decode(token).None? ==>
      out.0.status == 400 && out.1 == st
    ensures Unused(st.tokens, token) && Decode(token).Some? &&
            (!fx.userCreated || Decode(token).value.email in st.users) ==>
      out.0.status == 400 && out.1 == st
    ensures Unused(st.tokens, token) && Decode(token).Some? &&
            fx.userCreated && Decode(token).value.email !in st.users ==>
      && out.1.users == st.users[Decode(token).value.email := NewUser(Decode(token).value, form)]
      && (out.0.status == 201 <==> fx.tokenUpdated)
  {
    if token !in st.tokens then
      (Failure(404, TokenUnknownOnRegister), st)
    else if st.tokens[token] then
      (Failure(400, TokenAlreadyRegistered), st)
    else
      match Decode(token)
      case None => (Failure(400, ErrorText), st)
      case Some(payload) =>
        var user := NewUser(payload, form);
        if !fx.userCreated || payload.email in st.users then
          (Failure(400, ErrorText), st)
        else
          var users' := st.users[payload.email := user];
          if !fx.tokenUpdated then
            (Failure(400, ErrorText), st.(users := users'))
          else
            (Response(201, UserRegistered, UserData(user)), State(st.tokens[token := true], users'))
  }

  /** The fields an update request may change; a missing field is kept. */
  datatype UserPatch = UserPatch(
    firstName: Option<string>,
    lastName: Option<string>,
    password: Option<string>,
    roles: Option<seq<string>>)

  function Patched(u: User, p: UserPatch): (v: User) {
    User(if p.firstName.Some? then p.firstName else u.firstName,
         if p.lastName.Some? then p.lastName else u.lastName,
         u.email,
         if p.password.Some? then p.password else u.password,
         if p.roles.Some? then p.roles.value else u.roles)
  }

  /** Look a user up by email: 200 with the user, or 404 when absent. */
  function GetByEmail(users: UserStore, email: string): (r: Response)
    ensures r.status == 200 || r.status == 404
    ensures r.status == 404 <==> email !in users
    ensures r.status == 404 ==> r.message == UserUnknown && r.data == Empty
    ensures r.status == 200 ==> r.data == UserData(users[email])
  {
    if email in users then Response(200, Bare, UserData(users[email]))
    else Failure(404, UserUnknown)
  }

  /** Update a user by email: 200 with the updated user, or 404 when absent,
      leaving the store as it was. */
  function UpdateByEmail(users: UserStore, email: string, patch: UserPatch): (out: (Response, UserStore))
    ensures out.0.status == 200 || out.0.status == 404
    ensures out.0.status == 404 <==> email !in users
    ensures out.0.status == 404 ==> out.1 == users && out.0.data == Empty
    ensures out.0.status == 200 ==>
      && out.1.Keys == users.Keys
      && out.1[email] == Patched(users[email], patch)
      && out.0.data == UserData(out.1[email])
      && forall e :: e in users && e != email ==> out.1[e] == users[e]
  {
    if email in users then
      var u := Patched(users[email], patch);
      (Response(200, UserUpdated, UserData(u)), users[email := u])
    else
      (Failure(404, UserUnknown), users)
  }

  /** Delete a user by email: 204, or 404 when absent. */
  function DeleteByEmail(users: UserStore, email: string): (out: (Response, UserStore))
    ensures out.0.status == 204 || out.0.status == 404
    ensures out.0.status == 404 <==> email !in users
    ensures out.0.data == Empty
    ensures out.1.Keys == users.Keys - {email}
    ensures forall e :: e in out.1 ==> out.1[e] == users[e]
  {
    if email in users then (Response(204, UserDeleted, Empty), users - {email})
    else (Failure(404, UserUnknown), users)
  }
}
