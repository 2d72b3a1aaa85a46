# eTravelOrder access gate, form validators and travel-order codes in Dafny

This project models three small pure pieces of the eTravelOrder web application:

- **The request-time access gate.** The Next.js middleware sorts each request path into a route class and decides whether to let the request through or redirect it. A path is API-auth (prefix `/api/auth`), an auth-only route (exact match against five paths), a public route (exact match against two paths) or protected. With the boolean "signed in", the class gives one of three outcomes: pass, redirect to the default landing page `/settings`, or redirect to `/auth/login`.
- **The form validators.** These are the zod schemas for settings, login, registration, password reset, new password, adding a user and the travel request form. Each one is a predicate over a record of optional fields, where `None` is a missing field.
- **The travel-order reference code.** The helper that formats `TO-DD-MM-YY-XY` from a date and two random capital letters.

Modules:

- `Wrappers`: `Option`.
- `Routes` (routes.ts): the configuration as an immutable `RouteConfig` value, plus the shipped value `Shipped`.
- `Middleware` (middleware.ts): `Decide` is the callback branch for branch. `Classify` and `Outcome` are the same logic as a route class plus a decision table. There are also the requirements the gate puts on a configuration (`WellFormed`), and proofs that it never loops and that the list-check order does not matter when the lists are disjoint.
- `Schemas` (schemas/index.ts): one predicate per schema. The settings schema is proved equal to an independent plain-language rule. The other schemas are related to one another: registration credentials pass login, an accepted added user could register. Optional fields that never change the verdict are proved irrelevant.
- `JsStrings`: the JavaScript string operations the code formatter uses: `String(n)`, `padStart`, `slice(-2)`. `String(n)` is paired with a decimal reader and proved to read back, for naturals and for signed integers. `padStart` and `slice` are characterised by their length and suffix, and two lemmas give the digits they leave.
- `TravelOrderCode` (actions/travel-order.ts): `GenerateCode` and a parser `ParseCode` for its 14-character codes, with round trips in both directions for a day in 1..31, a month index in 0..11 and a year of two or more digits (the year kept as `|year|` mod 100).

Two things the code does not have:

- A role-to-landing-page map: the code redirects every signed-in user on an auth-only route to the one static `DEFAULT_LOGIN_REDIRECT` (`/settings`).
- A "session lookup failed" case: sign-in state is the boolean `!!req.auth`, which the model takes as an input.

## Model

| member | source | states |
|---|---|---|
| Middleware.Decide | middleware.ts:13-37 | An API-auth path always passes. A redirect of a signed-in user happens only on an auth-only route and goes to the default landing page. A redirect of an anonymous user happens only on a path that is neither auth-only nor public and goes to `/auth/login`. The request passes exactly when it is API-auth, an anonymous auth-route request, or an off-auth-route request that is signed in or public. |
| Middleware.Classify | middleware.ts:17-19 | The class is ApiAuth exactly when the path starts with the prefix. AuthRoute implies auth-list membership. PublicRoute implies public-list membership and not auth-list membership. Protected implies the path is on neither list. |
| Middleware.DecideIsTable | middleware.ts:21-36 | The if-chain equals the four-class decision table applied to the first-match classification. |
| Middleware.ApiAuthAlwaysPasses | middleware.ts:21-23 | A path under the API-auth prefix is classed ApiAuth and passes whether signed in or not. |
| Middleware.AuthRouteDecision | middleware.ts:25-30 | On an exact auth-only route a signed-in user is sent to the default landing page and an anonymous one passes. |
| Middleware.AnonymousProtectedGoesToLogin | middleware.ts:32-34 | An anonymous request for a path that is not API-auth, not auth-only and not public is classed Protected and sent to `/auth/login`. |
| Middleware.LoggedInPassesOffAuthRoutes | middleware.ts:25-36 | A signed-in request passes if and only if it is API-auth or not on an auth-only route. |
| Middleware.PublicRoutePasses | middleware.ts:32-36 | With disjoint lists, a public route passes in both sign-in states. |
| Middleware.ListedRoutesKeepTheirClass | middleware.ts:17-19 | Under a well-formed configuration, every auth-only route is classed AuthRoute and every public route PublicRoute. The prefix test shadows none of them. |
| Middleware.DecisionIsOneOfThree | middleware.ts:21-36 | Under a well-formed configuration the two redirect targets differ, and every request ends in exactly one of pass, redirect to the landing page, or redirect to the login page. |
| Middleware.NoRedirectLoop | middleware.ts:25-34 | Under a well-formed configuration, requesting the target of any redirect with the same sign-in state passes. |
| Middleware.CheckOrderIrrelevantWhenDisjoint | middleware.ts:25-34 | When the lists are disjoint, testing public routes before auth-only routes gives the same class for every path. |
| Middleware.CheckOrderMattersWhenOverlapping | middleware.ts:25-34 | For every configuration and every path on both lists and outside the API-auth prefix, the gate classes it auth-only and redirects a signed-in user. The public-first order would class it public and let the user through. |
| Middleware.LandingOnAuthRouteLoops | middleware.ts:25-28 | Every configuration whose landing page is an auth-only route outside the API-auth prefix is not well-formed, and redirects a signed-in user who asks for the landing page back to it. |
| Middleware.ShippedWellFormed | routes.ts:5-27 | The shipped lists are disjoint, and no listed route starts with `/api/auth`. `/auth/login` is auth-only and does not start with the prefix. `/settings` is not auth-only. |
| Middleware.ShippedLandingOutsidePrefix | routes.ts:20-27 | The shipped landing page `/settings` does not start with `/api/auth`. |
| Middleware.TrailingSlashIsProtected | middleware.ts:18-19 | Membership is exact: `/auth/login/` is Protected, so an anonymous user there is sent to `/auth/login` and a signed-in one passes. |
| Middleware.ShippedScenarios | middleware.ts:13-37 | With the shipped configuration: `/api/auth/callback` passes in both states, `/auth/login` redirects a signed-in user to `/settings` and passes an anonymous one, `/` passes an anonymous user, and `/users` redirects an anonymous user to `/auth/login` and passes a signed-in one. |
| Routes.ShippedAuthRoutesShape | routes.ts:12-18 | There are exactly five auth-only routes, pairwise distinct, all starting with `/auth/`. |
| Routes.ShippedPublicRoutes | routes.ts:5-18 | `/` and `/auth/new-verification` are public, and `/auth/new-verification` is not auth-only. |
| Routes.StartsWith | middleware.ts:17 | JavaScript `startsWith`: the prefix is no longer than the string and equals its first characters. |
| Schemas.Truthy | schemas/index.ts:15-19 | JavaScript truthiness of an optional string: present and not empty. |
| Schemas.SettingsRefine1 | schemas/index.ts:13-29 | Neither password is truthy without the other. |
| Schemas.SettingsRefine2 | schemas/index.ts:30-46 | `newPassword` is not truthy without `password`. The source tests this same condition twice. |
| Schemas.SettingsValid | schemas/index.ts:4-46 | The settings schema: role, e-mail and both password field rules, then both refinements. |
| Schemas.LoginValid | schemas/index.ts:48-56 | Login: a well-formed e-mail and a password of at least one character. The code is free. |
| Schemas.RegisterValid | schemas/index.ts:58-68 | Registration: a well-formed e-mail, a password of at least six characters and a non-empty name. |
| Schemas.ResetValid | schemas/index.ts:70-74 | Reset: a well-formed e-mail. |
| Schemas.NewPasswordValid | schemas/index.ts:76-80 | New password: at least six characters. |
| Schemas.AddUserValid | schemas/index.ts:82-90 | Adding a user: name of at least 5 characters, a well-formed e-mail, password of at least 6, non-empty station and position, and a known role. The signature is free. |
| Schemas.TravelFormValid | schemas/index.ts:92-100 | A travel request: six required non-empty fields. The additional participants are free. |
| Schemas.ParseRole | schemas/index.ts:8 | An accepted role string is the name of the role returned. A rejected string is the name of no role. |
| Schemas.RoleRoundTrip | schemas/index.ts:8 | Every role is read back from its own name. |
| Schemas.SettingsValidIffRule | schemas/index.ts:4-46 | A settings record is accepted exactly when its role is ADMIN, CLIENT or SIGNATORY, its e-mail (if any) is well-formed, and it has either no passwords or both passwords of at least six characters. |
| Schemas.SettingsPasswordsPaired | schemas/index.ts:10-29 | In an accepted settings record, `password` is present exactly when `newPassword` is, each present one has at least six characters, and the role parses. |
| Schemas.Refine1ImpliesRefine2 | schemas/index.ts:13-46 | Every record that passes the first refinement passes the second. |
| Schemas.Refine2DoesNotImplyRefine1 | schemas/index.ts:13-46 | Every record with a non-empty old password and no new one passes the second refinement but not the first. |
| Schemas.EmptyPasswordCaughtByLengthRule | schemas/index.ts:10-29 | For every settings record with an empty `password` and no `newPassword`: the record passes both refinements, which test truthiness, and is still rejected, by the six-character field rule. |
| Schemas.RegisteredCredentialsPassLogin | schemas/index.ts:48-80 | The e-mail and password of a valid registration pass the login schema with any code, the reset schema and the new-password schema. |
| Schemas.NewPasswordPassesLogin | schemas/index.ts:48-80 | A valid new password together with a valid e-mail passes the login schema. |
| Schemas.LoginWeakerThanRegister | schemas/index.ts:48-68 | With a valid e-mail, every password of one to five characters passes login, with any code, and fails registration, with any name. |
| Schemas.AddUserSignatureIrrelevant | schemas/index.ts:88 | The optional `signature` never changes whether an added user is accepted. |
| Schemas.AddedUserCouldRegister | schemas/index.ts:58-90 | An accepted added user's e-mail, password and name pass the registration schema. |
| Schemas.TravelParticipantsIrrelevant | schemas/index.ts:93 | The optional `additionalParticipants` never changes whether a travel request is accepted. |
| JsStrings.NatToDecimal | actions/travel-order.ts:13-15 | `String(n)` is a non-empty string of digits with no leading zero whose last digit is `n % 10`. It has one character exactly when `n < 10`. |
| JsStrings.DecimalRoundTrip | actions/travel-order.ts:13-15 | Reading back the decimal string of `n` gives `n`. |
| JsStrings.IntToString | actions/travel-order.ts:15 | `String(i)` of an integer: the digits of its magnitude, after a minus sign when negative. Its partner IntRoundTrip proves it reads back as `i`. |
| JsStrings.IntRoundTrip | actions/travel-order.ts:15 | `String(i)` of any integer has the signed decimal form (digits without leading zeros, after a minus sign when negative) and reads back as `i`. |
| JsStrings.PadStart | actions/travel-order.ts:13-14 | `padStart` gives the longer of the string's length and the width, keeps the string as a suffix, and fills the front with the fill character. |
| JsStrings.Slice | actions/travel-order.ts:15 | `slice` with a negative start keeps the last `-start` characters, or the whole string when it is shorter. The result is always a suffix. |
| JsStrings.PadTwoDigits | actions/travel-order.ts:13-14 | A number below 100, padded to two characters, is its tens digit followed by its units digit. |
| JsStrings.LastTwoDigits | actions/travel-order.ts:15 | The last two characters of a number of two or more digits are its tens and units digits. |
| JsStrings.LastTwoOfInt | actions/travel-order.ts:15 | The same holds for `String(i)` of a negative integer, using its magnitude. |
| TravelOrderCode.Letter | actions/travel-order.ts:17-19 | Character code `index + 65`, for index 0..25, is the capital letter with that index. |
| TravelOrderCode.GenerateCode | actions/travel-order.ts:11-24 | The code starts with `TO-` and is at least 13 characters long. It ends with `-` and two capital letters. |
| TravelOrderCode.CodeLayout | actions/travel-order.ts:13-21 | For a day in 1..31, a month index in 0..11 and a year of two or more digits, the code is `TO-` followed by the two-digit day, the two-digit one-based month, the last two digits of the year and the two letters, separated by `-`. |
| TravelOrderCode.ParseCode | actions/travel-order.ts:21 | A code the parser accepts is 14 characters, starts with `TO-`, and has a day in 1..31, a month in 1..12, two year digits and letter indices in 0..25. |
| TravelOrderCode.GenerateThenParse | actions/travel-order.ts:11-24 | A generated code parses back to its day, its one-based month, the last two digits of the year's magnitude (`|year|` mod 100) and its two letter indices. |
| TravelOrderCode.ParseThenGenerate | actions/travel-order.ts:11-24 | Every code the parser accepts is the code generated from its fields, for any year of two or more digits with the right last two digits. |
| TravelOrderCode.MonthFieldInRange | actions/travel-order.ts:14 | The month field of a generated code is two digits denoting 1..12. |
| TravelOrderCode.OneDigitYearField | actions/travel-order.ts:15 | For a year in 0..9, `slice(-2)` leaves the one digit and the code is 13 characters long. For a year in -9..-1 it leaves the minus sign and the digit, and the code is 14 characters long. |
| TravelOrderCode.NegativeOneDigitYearSample | actions/travel-order.ts:15-21 | The code for 5 January of the year -7 is `TO-05-01--7-AZ`. |
| TravelOrderCode.Layout | actions/travel-order.ts:21 | The template is 8 characters longer than its three fields together. It starts with `TO-` and ends with `-` and the two letters. |

## Left out

- NextAuth session lookup (`req.auth`, auth.ts): a foreign library call. Sign-in state is the boolean input `loggedIn`; the code has no lookup-failure case.
- The `config.matcher` regular expressions (middleware.ts:39-44): the framework interprets them. The model treats every path as reaching the gate.
- Building the redirect URL with `new URL(target, nextUrl)`: the model keeps only the target path. The origin comes from the request.
- A role-to-landing-page map: the code has only the static `/settings`.
- The zod e-mail format check: library-defined, so it is a parameter `isEmail`.
- zod's parse order and error messages: each schema is modelled only as accept or reject.
- zod measures string length in UTF-16 code units, while the model counts Dafny characters (Unicode scalar values).
- The `UserRole` enum of `z.nativeEnum(UserRole)` comes from the generated database client, which is not part of this model. It is taken to be ADMIN, CLIENT and SIGNATORY, as in the settings schema.
- JsStrings.NatToDecimal: exact only below 10^21. A JavaScript number is a double, and from 10^21 up `String(n)` uses exponent form (`1e+21`). The inputs of generateCode are far below that: a day up to 31, a month up to 12, a year of magnitude at most 275760.
- In generateCode, `new Date()` (clock) and `Math.random()` (floating point) become parameters: day, month index, year, and two letter indices in 0..25.
- Database access, password hashing, file storage and the UI components: I/O and presentation, outside the core.
- The rest of `createTravelOrder` (validation call, insert, result messages) and the other server actions: database glue around the validators and the code formatter.
