# Registration-token lifecycle of the user resource

This project models the invitation flow of the activity-monitoring backend's
user resource (`api/app/resource/user_resource.py`). An operator issues a
signed registration token for an email and a role. The token is stored
unused and mailed to the invitee. The invitee's client validates the token,
then registers with it. Registration creates the user and marks the token
used.

Each HTTP handler becomes a pure function `(state, now, request, collaborator
outcomes) -> (response, new state)`:

- `UserResource.Issue` (`on_post_token`): 201 with `{token}`, or 409 with empty data.
- `UserResource.Validate` (`on_get_token`): 200 with the decoded claims; 400 when the token is used or expired; 404 when it is unknown. Validate returns no new state, so it cannot change either store.
- `UserResource.Register` (`on_post_user_by_token`): 201 with the new user; 404 when the token is unknown; 400 for every other failure.
- `UserResource.GetByEmail`, `UpdateByEmail`, `DeleteByEmail`: the 404 mapping of `on_get_email`, `on_put_email` and `on_delete_email`.

The state is a token store `map<token, used>` plus a user store keyed by
email. A token is absent, present and unused, or present and used.

Modules:

- `Wrappers` (`wrappers.dfy`): `Option`.
- `TokenCodec` (`token_codec.dfy`): a stand-in for the HS256 JWT codec. Token text holds the email and the role as length-prefixed fields, followed by the expiry as a decimal numeral. `Decode` is partial, and `Decode(Encode(c)) == Some(c)` is proved.
- `UserResource` (`user_resource.py`'s handlers, in `user_resource.dfy`).
- `Lifecycle` (`lifecycle.dfy`): lemmas that relate several calls, plus sequential traces of calls (`Call`, `Step`, `Run`, `Final`) and the single-use property over them.

Collaborators and the clock are parameters:

- `now` is the clock in whole seconds. A token's expiry is `now + 604800` (seven days).
- `IssueEffects(stored, mailed)` says whether the token insert and the invitation mail succeeded.
- `RegisterEffects(userCreated, tokenUpdated)` says whether the user insert and the mark-used write succeeded.

The internals of the user service are not part of this model. Two choices stand in for them:

- Inserting a token that is already stored fails. The store is keyed by token.
- Creating a user whose email is already a key of the user store fails. The user store is keyed by email.

The single-use results (`Lifecycle.StepKeepsTokens`, `Lifecycle.UsedStaysUsed`, `Lifecycle.ConsumedAtMostOnce`) rest on the first choice. The same email and role, issued twice within the same second, give the same token text: the signature is deterministic and the expiry is truncated to whole seconds. If the real token insert (line 178) overwrote the stored entry instead of failing, such a re-issue would turn a used token back to unused, and the token could register a second time. The model does not cover an overwriting insert.

Behaviour of the code that is easy to misread:

- Validation reads the used flag before anything else. A used token is reported as used even when it is also expired.
- A decode failure in `on_get_token` is not caught by its `except RegistrationToken.DoesNotExist`. The model answers it with 500 (`Unhandled`). `Lifecycle.ValidateNeverUnhandled` proves that, in the model, this branch cannot be reached from an empty token store, because every call keeps the invariant that each stored token decodes (`Lifecycle.TokensDecode`). This holds of the model only: the JWT library's own expiry check, which is not modelled, makes `jwt.decode` at line 271 raise on an expired token, and nothing catches that.
- `on_post_user_by_token` has no explicit expiry check. Registering with an unused but expired token succeeds in the model.
- Marking a token used is a separate write after the user is created (read, then write). It is not an atomic test-and-set.

## Model

| member | source | states |
|---|---|---|
| TokenCodec.DecodeEncode | api/app/resource/user_resource.py:171-175 | decoding the token issued for a claim set gives back exactly that claim set (email, role, exp) |
| TokenCodec.EncodeInjective | api/app/resource/user_resource.py:171-178 | distinct claim sets never produce the same token, so the token can key the store |
| UserResource.Issue | api/app/resource/user_resource.py:160-242 | the answer is 201 or 409, and 409 carries empty data; a 201 carries a token that decodes to the request's email and role with an expiry exactly 604800 seconds (7 days) after `now`, was not stored before and is now stored unused; a missing email or role, or a failed insert, answers 409 with both stores unchanged; once the insert of a new token succeeds, that token is stored unused whether or not the mail then fails, and the answer is 201 exactly when the mail succeeds; re-issuing a token already stored answers 409 and changes nothing; no stored flag changes |
| UserResource.Validate | api/app/resource/user_resource.py:260-294 | the answer is 404 exactly when the token is not stored; a used token answers 400 "already used" whatever its expiry; an unused token answers 400 "expired" exactly when `exp < now` and 200 with the decoded claims exactly when `now <= exp`; a decode failure is uncaught (500); only a 200 carries data |
| UserResource.Register | api/app/resource/user_resource.py:296-337 | the answer is 201, 400 or 404, and only 201 carries data; 404 exactly when the token is not stored, with no change; a used token answers 400 with no user created; an unused token that does not decode, or whose email is already registered, or whose user insert fails, answers 400 with no change; for an unused token that decodes to a new email with a successful user insert, the user whose email and role list `[role]` come from the token and whose first name, last name and password come from the body is added, and the answer is 201 exactly when the mark-used write succeeds, so a failed mark leaves the user created, the token unused and the answer 400; a 201 marks the token used; any other answer leaves every token flag unchanged |
| UserResource.GetByEmail | api/app/resource/user_resource.py:67-82 | 404 with empty data exactly when no user has that email; otherwise 200 with that user |
| UserResource.UpdateByEmail | api/app/resource/user_resource.py:84-107 | 404 exactly when the email is unknown, leaving the store unchanged; otherwise 200 with the patched user, every other user unchanged |
| UserResource.DeleteByEmail | api/app/resource/user_resource.py:109-128 | 404 exactly when the email is unknown; otherwise 204; afterwards exactly that email is gone and every other user is unchanged |
| Lifecycle.IssueThenValidate | api/app/resource/user_resource.py:271-286 | a freshly issued token validates with the issued email, role and expiry at every time up to and including its expiry second, and answers 400 "expired" after it |
| Lifecycle.MailFailureKeepsToken | api/app/resource/user_resource.py:178-182 | when the mail fails after the insert, the request answers 409 with empty data, yet its token stays stored unused and validates |
| Lifecycle.IssueThenRegister | api/app/resource/user_resource.py:308-317 | registering with a freshly issued token creates a user with the token's email and `roles == [role]`, and leaves the token used |
| Lifecycle.ConsumedTokenRejected | api/app/resource/user_resource.py:261-269 | after a successful registration, validating the token answers 400 "already used" at any time, and registering with it again answers 400 and changes nothing |
| Lifecycle.GetAfterDelete | api/app/resource/user_resource.py:113-128 | after a delete, a lookup of the same email answers 404 |
| Lifecycle.GetAfterUpdate | api/app/resource/user_resource.py:89-99 | after a successful update, a lookup returns the patched user |
| Lifecycle.StepKeepsTokens | api/app/resource/user_resource.py:317 | no call removes a token or turns a used token back to unused; a 201 registration turns its unused token into a used one |
| Lifecycle.UsedStaysUsed | api/app/resource/user_resource.py:298-306 | once a token is used it stays used along any trace, and no later registration with it answers 201 |
| Lifecycle.ConsumedAtMostOnce | api/app/resource/user_resource.py:298-317 | in any sequential trace, at most one registration with a given token answers 201 |
| Lifecycle.StepKeepsTokensDecoding | api/app/resource/user_resource.py:171-178 | every call keeps the invariant that each stored token decodes |
| Lifecycle.TraceKeepsTokensDecoding | api/app/resource/user_resource.py:171-178 | every trace keeps the invariant that each stored token decodes |
| Lifecycle.ValidateNeverUnhandled | api/app/resource/user_resource.py:271 | from an empty token store, after any trace, validation answers 200, 400 or 404 and never reaches the uncaught decode failure |

## Left out

- `api/resource/measurements_resource.py`, `on_post`: an HTTP post to the time-series store plus a message-queue publish, with a blanket 204/400 mapping. This is network I/O only. The commented-out version at the top of that file is dead code.
- `on_get`, `on_post`, `on_get_id`, `on_get_id_by_email`: thin wrappers that spread request fields into the user service. They have no token state.
- The SMTP session and the HTML invitation body (lines 180-226). Delivery is a boolean outcome.
- The HS256 signature and the signing secret. `TokenCodec` is a stand-in that is injective with a partial decode. It does not model forgery resistance.
- The JWT library's own expiry verification inside `jwt.decode`. Only the explicit check at line 272 is modelled.
- Wall-clock time. `now` is a parameter in whole seconds. At issue time it stands for the real time rounded down, as the JWT library truncates the expiry to whole seconds.
- UserResource.Validate: at validation time `now` stands for the real time rounded UP to a whole second. Line 272 compares the integer expiry with a fractional timestamp, and for an integer `exp`, `exp < t` holds exactly when `exp < ceil(t)`. A real time strictly between `exp` and `exp + 1` is therefore "expired" in both. The model does not track the two clock readings separately.
- UserResource.Validate: line 272 calls `.timestamp()` on a naive `utcnow()` value, which Python reads as local time. On a host whose clock is not set to UTC, the expiry boundary shifts by the host's UTC offset. The model assumes a UTC host.
- Concurrency. The handlers read the used flag and write it later (lines 298 and 317). Only sequential traces are modelled, and no race-freedom is claimed.
- Exception texts (`str(e)`). They are one message kind, `ErrorText`.
- Failures of the user-store lookups other than "does not exist" in the email handlers. They are not caught in the source.
- UserResource.Validate: the used-flag lookup (line 261) never fails in the model other than by the token being absent. A different lookup error is not caught there and would answer 500.
- UserResource.Register: the used-flag lookup (line 298) never fails in the model other than by the token being absent. A different lookup error is caught by the generic handler and would answer 400, even for a token that is not stored.
- `UpdateByEmail` patches first name, last name, password and roles. Changing the email key through the spread fields is not modelled.
