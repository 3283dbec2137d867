/**
 Properties that relate several handler calls: what one call leaves behind
 for the next, and what holds along any sequential trace of calls.
 */
module Lifecycle {
  import opened Wrappers
  import opened TokenCodec
  import opened UserResource

  /** A token fresh from `Issue` validates, with the issued claims, until
      its expiry second has passed, and is reported expired afterwards. */
  lemma IssueThenValidate(st: State, now: nat, req: TokenRequest, later: nat)
    requires req.email.Some? && req.role.Some?
    requires Encode(RequestedClaims(req, now)) !in st.tokens
    ensures var (r, st') := Issue(st, now, req, IssueEffects(true, true));
      && r.status == 201
      && var v := Validate(st', later, r.data.token);
      && (later <= now + TokenLifetime ==> v == Response(200, TokenValid, ClaimsData(Claims(req.email.value, req.role.value, now + TokenLifetime))))
      && (later > now + TokenLifetime ==> v == Response(400, TokenExpired, Empty))
  {
  }

  /** A mail failure after the insert still leaves a usable token behind:
      the token the request would have produced validates. */
  lemma MailFailureKeepsToken(st: State, now: nat, email: string, role: string)
    requires Encode(Claims(email, role, now + TokenLifetime)) !in st.tokens
    ensures var req := TokenRequest(Some(email), Some(role));
      var (r, st') := Issue(st, now, req, IssueEffects(true, false));
      var t := Encode(Claims(email, role, now + TokenLifetime));
      && r == Response(409, ErrorText, Empty)
      && Unused(st'.tokens, t)
      && Validate(st', now, t).status == 200
  {
    DecodeEncode(Claims(email, role, now + TokenLifetime));
  }

  /** Registering with a freshly issued token creates the user the token
      names, with the token's role as its only role. */
  lemma IssueThenRegister(st: State, now: nat, req: TokenRequest, form: RegistrationForm)
    requires req.email.Some? && req.role.Some?
    requires Encode(RequestedClaims(req, now)) !in st.tokens
    requires req.email.value !in st.users
    ensures var (r, st') := Issue(st, now, req, IssueEffects(true, true));
      var (r2, st'') := Register(st', r.data.token, form, RegisterEffects(true, true));
      && r.status == 201
      && r2.status == 201
      && r2.data.user.email == req.email.value
      && r2.data.user.roles == [req.role.value]
      && Used(st''.tokens, r.data.token)
  {
  }

  /** After a successful registration the token is spent: validating it
      answers 400 "already used" at any time, and registering with it again
      answers 400 without touching either store. */
  lemma ConsumedTokenRejected(st: State, token: Token, form: RegistrationForm, fx: RegisterEffects,
                              now: nat, form2: RegistrationForm, fx2: RegisterEffects)
    requires Register(st, token, form, fx).0.status == 201
    ensures var st' := Register(st, token, form, fx).1;
      && Validate(st', now, token) == Response(400, TokenAlreadyUsed, Empty)
      && Register(st', token, form2, fx2) == (Response(400, TokenAlreadyRegistered, Empty), st')
  {
  }

  /** Deleting a user makes the next lookup answer 404. */
  lemma GetAfterDelete(users: UserStore, email: string)
    ensures GetByEmail(DeleteByEmail(users, email).1, email).status == 404
  {
  }

  /** A successful update is what the next lookup returns. */
  lemma GetAfterUpdate(users: UserStore, email: string, patch: UserPatch)
    requires email in users
    ensures var users' := UpdateByEmail(users, email, patch).1;
      GetByEmail(users', email) == Response(200, Bare, UserData(Patched(users[email], patch)))
  {
  }

  /** One call against the resource. */
  datatype Call =
    | IssueCall(now: nat, req: TokenRequest, issueFx: IssueEffects)
    | ValidateCall(now: nat, token: Token)
    | RegisterCall(token: Token, form: RegistrationForm, registerFx: RegisterEffects)
    | GetCall(email: string)
    | UpdateCall(email: string, patch: UserPatch)
    | DeleteCall(email: string)

  function Step(st: State, call: Call): (out: (Response, State)) {
    match call
    case IssueCall(now, req, fx) => Issue(st, now, req, fx)
    case ValidateCall(now, token) => (Validate(st, now, token), st)
    case RegisterCall(token, form, fx) => Register(st, token, form, fx)
    case GetCall(email) => (GetByEmail(st.users, email), st)
    case UpdateCall(email, patch) =>
      var (r, users') := UpdateByEmail(st.users, email, patch);
      (r, st.(users := users'))
    case DeleteCall(email) =>
      var (r, users') := DeleteByEmail(st.users, email);
      (r, st.(users := users'))
  }

  /** The state after running `calls` in order from `st`. */
  function Final(st: State, calls: seq<Call>): (st': State)
    decreases |calls|
  {
    if |calls| == 0 then st else Final(Step(st, calls[0]).1, calls[1..])
  }

  /** The responses of running `calls` in order from `st`, one per call. */
  function Run(st: State, calls: seq<Call>): (rs: seq<Response>)
    ensures |rs| == |calls|
    decreases |calls|
  {
    if |calls| == 0 then []
    else
      var (r, st') := Step(st, calls[0]);
      [r] + Run(st', calls[1..])
  }

  /** Call `i` of a trace consumed `token`: a registration with it that
      answered 201. */
  predicate Consumes(calls: seq<Call>, rs: seq<Response>, i: int, token: Token)
    requires |rs| == |calls|
  {
    0 <= i < |calls| && calls[i].RegisterCall? && calls[i].token == token && rs[i].status == 201
  }

  /** No call ever removes a token or turns a used token back to unused. */
  lemma StepKeepsTokens(st: State, call: Call, token: Token)
    ensures token in st.tokens ==> token in Step(st, call).1.tokens
    ensures Used(st.tokens, token) ==> Used(Step(st, call).1.tokens, token)
    ensures var (r, st') := Step(st, call);
      call.RegisterCall? && call.token == token && r.status == 201 ==>
        Unused(st.tokens, token) && Used(st'.tokens, token)
  {
  }

  /** Call `k > 0` of a trace is call `k - 1` of the trace that starts after
      the first call. */
  lemma ConsumesShift(st: State, calls: seq<Call>, token: Token, k: int)
    requires 0 < k < |calls|
    ensures Consumes(calls, Run(st, calls), k, token) <==>
            Consumes(calls[1..], Run(Step(st, calls[0]).1, calls[1..]), k - 1, token)
  {
  }

  lemma {:induction false} UsedStaysUsed(st: State, calls: seq<Call>, token: Token)
    requires Used(st.tokens, token)
    ensures Used(Final(st, calls).tokens, token)
    ensures forall i :: 0 <= i < |calls| ==> !Consumes(calls, Run(st, calls), i, token)
    decreases |calls|
  {
    if |calls| > 0 {
      var st' := Step(st, calls[0]).1;
      StepKeepsTokens(st, calls[0], token);
      UsedStaysUsed(st', calls[1..], token);
      forall i | 0 <= i < |calls| ensures !Consumes(calls, Run(st, calls), i, token) {
        if i > 0 {
          ConsumesShift(st, calls, token, i);
        }
      }
    }
  }

  /** Single use: in any sequential trace, at most one registration with a
      given token answers 201. */
  lemma {:induction false} ConsumedAtMostOnce(st: State, calls: seq<Call>, token: Token, i: int, j: int)
    requires Consumes(calls, Run(st, calls), i, token)
    requires Consumes(calls, Run(st, calls), j, token)
    ensures i == j
    decreases |calls|
  {
    var st' := Step(st, calls[0]).1;
    if i == 0 || j == 0 {
      var k := if i == 0 then j else i;
      StepKeepsTokens(st, calls[0], token);
      UsedStaysUsed(st', calls[1..], token);
      if k > 0 {
        ConsumesShift(st, calls, token, k);
      }
    } else {
      ConsumesShift(st, calls, token, i);
      ConsumesShift(st, calls, token, j);
      ConsumedAtMostOnce(st', calls[1..], token, i - 1, j - 1);
    }
  }

  /** Every stored token decodes: the state the handlers keep is built only
      from tokens `Issue` encoded. */
  predicate TokensDecode(st: State) {
    forall t :: t in st.tokens ==> Decode(t).Some?
  }

  lemma StepKeepsTokensDecoding(st: State, call: Call)
    requires TokensDecode(st)
    ensures TokensDecode(Step(st, call).1)
  {
    if call.IssueCall? && call.req.email.Some? && call.req.role.Some? {
      DecodeEncode(RequestedClaims(call.req, call.now));
    }
  }

  lemma {:induction false} TraceKeepsTokensDecoding(st: State, calls: seq<Call>)
    requires TokensDecode(st)
    ensures TokensDecode(Final(st, calls))
    decreases |calls|
  {
    if |calls| > 0 {
      StepKeepsTokensDecoding(st, calls[0]);
      TraceKeepsTokensDecoding(Step(st, calls[0]).1, calls[1..]);
    }
  }

  /** Starting from an empty token store, validation never reaches the
      uncaught decode failure: it always answers 200, 400 or 404. */
  lemma ValidateNeverUnhandled(users: UserStore, calls: seq<Call>, now: nat, token: Token)
    ensures Validate(Final(State(map[], users), calls), now, token).status in {200, 400, 404}
  {
    TraceKeepsTokensDecoding(State(map[], users), calls);
  }
}
