# Admin access gate

A Dafny model of the `adminAuth` Express middleware of the e-commerce backend. The gate
protects the admin routes (order listing, order status, and product add, remove and single lookup). It has two steps:

1. **Token extraction.** A truthy `token` header is the token. Otherwise, when the
   `Authorization` header is truthy, the token is that header with a leading,
   case-sensitive `"Bearer "` removed (`substring(7)`). If the header has no such prefix,
   the whole header is the token.
2. **Verdict.** With no truthy token, the request is answered `{ success: false,
   message: "Not Authorized" }`. Otherwise the token is verified with `JWT_SECRET`. A
   verification error is answered with the error's message. A decoded payload that is not
   strictly equal (`!==`) to `ADMIN_EMAIL + ADMIN_PASSWORD` is answered with "Not
   Authorized". Only a matching payload calls `next()`.

The files:

- `JsValues.dfy` (module `JsValues`) covers the JavaScript semantics the gate depends
  on: values that may be `undefined`, truthiness, `startsWith`, one-argument
  `substring`, `+` on two operands that are each a string or `undefined`, and `===`.
- `AdminAuth.dfy` (module `AdminAuth`) holds the headers, the environment, the verifier
  oracle, the `Outcome` datatype (`Next | Reject(message)`), `ExtractToken`, `Gate` and
  the lemmas about them.

Inputs that are not modelled in detail:

- Headers and environment variables become parameters of type `Option<string>`, where
  `None` stands for `undefined`.
- `jwt.verify(token, secret)` becomes a function parameter `verify`. It returns
  `Decoded(payload)` or `Thrown(message)`. The payload is a string or an object.
- Writing the response and calling `next()` become the returned `Outcome`. A
  `Reject(m)` stands for the single `res.json({ success: false, message: m })`.
  `Next` stands for the single `next()` call.

What the JavaScript semantics implies, and the model keeps:

- An empty header counts as absent. So `token: ""` falls through to `Authorization`,
  and `Authorization: Bearer ` yields the empty token, which is rejected.
- `undefined + undefined` is `NaN`, which equals nothing. So with both admin variables
  unset, no token gets through.
- With exactly one of the two admin variables unset, that variable contributes the
  text `"undefined"` to the expected payload.

## Model

| member | source | states |
|---|---|---|
| `AdminAuth.ExtractToken` | backend/middlewares/adminAuth.js:6-17 | a truthy `token` header is the token; otherwise, if `Authorization` is truthy, the token is that header minus its first 7 characters when `"Bearer "` is a prefix of it, and the whole header when it is not; otherwise the token is the `token` header as given (absent or empty) |
| `AdminAuth.TokenHeaderTakesPrecedence` | backend/middlewares/adminAuth.js:6-9 | a truthy `token` header is the token, and changing the `Authorization` header does not change the result |
| `AdminAuth.BearerPrefixStripped` | backend/middlewares/adminAuth.js:9-13 | with no truthy `token` header and an `Authorization` header that has `"Bearer "` as a prefix, the token is the header minus its first 7 characters, and `"Bearer "` followed by the token gives the header back |
| `AdminAuth.NonBearerKeptVerbatim` | backend/middlewares/adminAuth.js:9-15 | with no truthy `token` header and a non-empty `Authorization` header that lacks the prefix, the token is the whole header |
| `AdminAuth.LowerCaseSchemeKept` | backend/middlewares/adminAuth.js:12-15 | the prefix test is case-sensitive: `"bearer x"` is kept verbatim |
| `AdminAuth.BearerRoundTrip` | backend/middlewares/adminAuth.js:9-13 | for every string `t`, the header `"Bearer " + t` with no truthy `token` header yields `t` |
| `AdminAuth.NoHeadersNoToken` | backend/middlewares/adminAuth.js:6-9 | with neither header truthy, no truthy token results |
| `AdminAuth.AdminSignature` | backend/middlewares/adminAuth.js:30 | a payload is strictly equal to `ADMIN_EMAIL + ADMIN_PASSWORD` exactly when it is the string of email then password (an unset one reads `"undefined"`) with at least one of the two set; so an object payload never matches |
| `AdminAuth.Gate` | backend/middlewares/adminAuth.js:21-41 | no truthy token gives `Reject("Not Authorized")`; a verifier error gives `Reject` with its message; a decoded payload other than the admin payload gives `Reject("Not Authorized")`; and the outcome is `Next` if and only if the token decodes to the admin payload |
| `AdminAuth.NoTokenRejected` | backend/middlewares/adminAuth.js:21-26 | without a truthy token the outcome is `Reject("Not Authorized")`, and the outcome does not depend on the verifier |
| `AdminAuth.BareBearerRejected` | backend/middlewares/adminAuth.js:12-13 | `Authorization: Bearer ` with no truthy `token` header is rejected with "Not Authorized" |
| `AdminAuth.ObjectPayloadRejected` | backend/middlewares/adminAuth.js:30-35 | a token whose decoded payload is an object, such as a user token, is rejected with "Not Authorized" |
| `AdminAuth.UnsetCredentialsLockOut` | backend/middlewares/adminAuth.js:30 | with both admin variables unset no request reaches `Next` |
| `AdminAuth.UnsetEmailReadsUndefined` | backend/middlewares/adminAuth.js:30 | with only the password set, a payload of `"undefined"` followed by the password is admitted |
| `JsValues.Truthy` | backend/middlewares/adminAuth.js:9-21 | the truthiness tests on the headers and the token: only a non-empty string is truthy, and `undefined` and `""` are not |
| `JsValues.StartsWith` | backend/middlewares/adminAuth.js:12 | `startsWith` compares character by character and case-sensitively; the empty prefix always matches, and a string shorter than the prefix never does |
| `JsValues.Plus` | backend/middlewares/adminAuth.js:30 | `+` on two operands that are each `undefined` or a string: two `undefined` give `NaN`; otherwise string concatenation, with `"undefined"` for an unset operand |
| `JsValues.StrictEquals` | backend/middlewares/adminAuth.js:30 | `===`: strings are equal by content, objects by reference, and `NaN` equals nothing |
| `JsValues.StartsWithIsPrefix` | backend/middlewares/adminAuth.js:12 | the character-by-character `startsWith` holds exactly when the prefix is a sequence prefix of the string |
| `JsValues.AfterPrefix` | backend/middlewares/adminAuth.js:12-13 | after a matched prefix, the prefix followed by `substring(prefix length)` is the original string |
| `JsValues.Substring` | backend/middlewares/adminAuth.js:13 | `substring(start)` has the length of the string minus `start` (or 0 past the end) and is what follows the first `start` characters |

## Left out

- `jwt.verify` signature checking and decoding: a foreign cryptographic library. It is
  the oracle parameter `verify`. The behaviour of `jwt.verify` when `JWT_SECRET` is
  unset is the oracle's business.
- `jwt.verify` also reads the clock to check the `exp` and `nbf` claims. One `verify`
  value stands for `jwt.verify` at the moment of a single request; changes of the
  verdict over time are not modelled.
- `next()` is assumed to return normally. It is called inside the `try` block, so if
  `next()` itself threw, the `catch` at lines 38-40 would send a second response. The
  model gives each request exactly one `Outcome` and does not capture that case.
- `console.log` calls: logging, with no effect on the outcome.
- Strings are sequences of Unicode scalar values, while JavaScript's `substring`
  counts UTF-16 code units. The prefix removed is the 7-character ASCII text
  `"Bearer "`, so both counts agree wherever the prefix matched.
- An error object without a `message` property (the response would then carry no
  message): the oracle always supplies a message string.
- A `token` header that Node delivers as something other than a string is not
  modelled: both headers are `undefined` or a string.
- Routes, the Swagger configuration, server bootstrap and the Mongoose models: they
  only declare routes, documents and connections and contain no decisions. The cart and
  order controllers and the user gate `backend/middlewares/auth.js` are not part of this
  model.
