# Evently account core in Dafny

Evently is a Next.js event-listing site. The model covers its server-side logic:

- **Accounts.** A table of user records keyed by email, and the request handlers that read and write it. Signup creates a credentials account. NextAuth's Credentials `authorize` checks a password. The `jwt` and `session` callbacks copy identity claims. Verify-email consumes a 24-hour token, and resend issues a new one. Verify-phone sends a 10-minute OTP, then checks it and upgrades the caller to ORGANIZER. Check-role reports the caller's role and verification flags.
- **Helpers.** The phone-number normaliser and OTP arithmetic from `lib/sms.ts`. The in-memory category filter and page window from `lib/events-data.ts`. The same paging and the price mapping from the events route. The Cloudinary URL builder.

Layout, one module per file:

- **Shared modules.** `Wrappers` holds `Option` and `Reply`, a status code with either a value or an error message. `Js` holds the JavaScript built-ins the code relies on: truthiness, ASCII `toLowerCase`, and `slice`. `Numbers` holds the decimal rendering of integers. `Hex` holds `Buffer.toString('hex')`. `Bcrypt` holds bcrypt's hash and compare.
- **`Users`.** The record type and the table invariant. The class `UserStore` is the database, holding `users: map<string, User>`. Its invariant `Valid()` requires four things:
  - every row is stored under its own email;
  - ids are unique;
  - a non-null email-verification token belongs to at most one user;
  - no one with a verified phone is a plain USER.
- **Routes.** Every route that writes is a method that takes the store, `modifies` it, keeps `Valid()`, and states its full new state and response for each guard. Read-only code is modelled as functions over a snapshot of the table.

Handling of time, randomness and outside services:

- Time is an integer `now` in milliseconds.
- Random values are parameters. The OTP draw is `0 <= draw < 900000`. The token source is 32 bytes.
- Delivery of email and SMS is a boolean outcome.
- The database's id generator is a parameter.
- Unique constraints are modelled as failures, not assumed away. A generated id that is already in use makes `create` throw 'Unique constraint', and signup answers 400. A reissued email token that another user already holds makes `update` throw, and resend answers 500.

Behaviour worth knowing:

- `formatPhoneNumber("08011112222")` gives "+08011112222": only ten digits get a country code, "+1" (`Sms.FormatDigitString`).
- Signup does not fill in the email-verification fields.
- The "phone already verified by another account" check runs only at 'send', not at 'verify', so no invariant excludes two verified accounts with one phone number.
- A 'send' replaces `phone` but leaves `phoneVerified` as it was. A caller who verified number X and then sends for number Y is left with phone Y still marked verified: Y now counts as verified by another account for everyone else, and X is free again.
- bcrypt reads only the first 72 bytes of a password, and signup sets no upper length, so two long passwords that share those bytes open the same account (`Auth.AuthorizeExactlyThePassword`, which counts 72 characters; see `Bcrypt.Hash` under "## Left out").

## Model

| member | source | states |
|---|---|---|
| Js.ToLower | lib/events-data.ts:186 | `toLowerCase` keeps the length and lowers each character (ASCII letters only) |
| Js.Slice | lib/events-data.ts:193 | `slice` with non-negative ends: clamped to the length, [] when the start is at or past the end, the exact subrange otherwise |
| Numbers.NatToString | lib/sms.ts:9 | decimal rendering: at least one character, all digits, no leading zero |
| Numbers.IntToString | lib/cloudinary.ts:10-13 | template-literal rendering of an integer reads back as that integer: all digits for i >= 0, '-' and the digits of the magnitude for i < 0 |
| Numbers.ParseNatToString | lib/sms.ts:9 | reading the decimal rendering back gives the number (round trip) |
| Numbers.NatToStringLength | lib/sms.ts:9 | a number in [10^(k-1), 10^k) renders in exactly k characters |
| Hex.Encode | app/api/auth/verify-email/route.ts:91 | the hex text of n bytes is 2n lower-case hex digits |
| Hex.DecodeEncode | app/api/auth/verify-email/route.ts:91 | decoding the hex text gives the bytes back |
| Hex.EncodeInjective | app/api/auth/verify-email/route.ts:91 | different bytes give different tokens |
| Bcrypt.Significant | lib/auth.ts:36-39 | the part of a password bcrypt reads: at most 72 characters, a prefix, all of a short password |
| Bcrypt.Hash | app/api/auth/signup/route.ts:36 | the digest depends on a prefix of at most 72 characters, and on all of a password that is no longer |
| Bcrypt.Compare | lib/auth.ts:36-39 | a match means the digest was made from a prefix of the attempt; for attempts of at most 72 characters, a match iff the digest was made from exactly that attempt |
| Bcrypt.CompareHash | lib/auth.ts:36-39 | a password matches its own stored digest |
| Bcrypt.CompareOther | lib/auth.ts:36-43 | a password differing within its first 72 characters does not match |
| Bcrypt.CompareSharedPrefix | lib/auth.ts:36-39 | two passwords sharing their first 72 characters match each other's digest |
| Users.ReplaceRow | app/api/auth/verify-phone/route.ts:119-127 | a one-row update that keeps email and id, takes only a token nobody else holds and pairs a verified phone with a role above USER keeps the table invariant |
| Users.InsertRow | app/api/auth/signup/route.ts:38-45 | inserting a row under a new email and id, with no email token and no verified phone, keeps the table invariant and adds one row |
| Sms.Digits | lib/sms.ts:29 | `replace(/\D/g, '')` returns only digits and never grows the input |
| Sms.DigitsConcat | lib/sms.ts:29 | stripping works piecewise, so the digits keep their order |
| Sms.DigitsOfDigits | lib/sms.ts:29 | a string of digits is left unchanged |
| Sms.DigitsMembership | lib/sms.ts:29 | a character survives iff it is in the input and is a digit |
| Sms.FormatPhoneNumber | lib/sms.ts:28-39 | the result starts with '+'; '+'-prefixed input comes back unchanged; otherwise "+1"+digits for exactly 10 digits and "+"+digits for any other count |
| Sms.FormatKeepsDigits | lib/sms.ts:29-35 | without '+', the output after its "+" or "+1" prefix is exactly the input's digits |
| Sms.FormatIdempotent | lib/sms.ts:28-39 | formatting twice equals formatting once |
| Sms.FormatDigitString | lib/sms.ts:31-35 | a bare digit string gets "+1" only when it has ten digits, else just "+" |
| Sms.FormatKeepsPlusForm | lib/sms.ts:31-38 | "+44 20 7946-0958" keeps its spaces and dash |
| Sms.GenerateOtp | lib/sms.ts:8-10 | the OTP is 6 digits whose value is 100000 + draw, so it lies in [100000, 999999] |
| Auth.Authorize | lib/auth.ts:19-51 | missing email or password is rejected before any lookup; success iff the email is registered, has a password and the password compares; the identity is exactly the stored id, email, name and image |
| Auth.AuthorizeFailures | lib/auth.ts:28-43 | the message for an unknown email, a password-less (OAuth) account and a wrong password |
| Auth.AuthorizeExactlyThePassword | lib/auth.ts:36-43 | for an account hashed from p, an attempt signs in iff it agrees with p on the first 72 characters; for passwords of at most 72 characters, iff it is p |
| Auth.BuildProviders | lib/auth.ts:11-73 | Credentials first; Google present iff both Google variables are non-empty, then Facebook iff both Facebook variables are; the count matches |
| Auth.Jwt | lib/auth.ts:96-104 | with a user, the four claims are overwritten from it and `sub` is kept; without one the token is unchanged |
| Auth.SessionCallback | lib/auth.ts:105-113 | with a session user, the four claims are copied from the token; otherwise the session is unchanged |
| Auth.SignInFlow | lib/auth.ts:96-113 | after a successful authorize, the jwt and session callbacks leave the stored user's id, email, name and image on the session |
| Signup.LocalPart | app/api/auth/signup/route.ts:40 | `split('@')[0]` is the longest '@'-free prefix: the text before the first '@', or the whole email |
| Signup.Post | app/api/auth/signup/route.ts:5-70 | 400 for a falsy email or password, for fewer than 6 characters (exactly 6 accepted), for a registered email and for an id clash, each with the table unchanged; otherwise 201 with id, name, email and role and no password; exactly one USER row added with the password's hash; the new account then passes `authorize` |
| Signup.SignupTwice | app/api/auth/signup/route.ts:25-34 | a second signup with the same email is rejected and the table keeps one new row |
| VerifyEmail.Post | app/api/auth/verify-email/route.ts:4-56 | 400 for a missing token, an unknown token and an expired one (strict `<`, null never expires), each with no write; otherwise 200, `emailVerified` = now, token and expiry nulled, no other change; afterwards nobody holds the token |
| VerifyEmail.Get | app/api/auth/verify-email/route.ts:59-117 | 400 for a missing email, 404 for an unknown one, 400 if already verified, in that order and with no write; otherwise the token becomes the 64-hex-digit encoding of the random bytes, expiry now + 86400000 and 200 whatever the delivery outcome; 500 with no write on a token clash; the previous token then resolves to nobody |
| VerifyEmail.ReplayRejected | app/api/auth/verify-email/route.ts:16-43 | a token that verified once is rejected the second time as invalid |
| VerifyEmail.ResendInvalidatesPrevious | app/api/auth/verify-email/route.ts:90-100 | after a successful resend, the token sent before is rejected as invalid |
| CheckRole.Get | app/api/auth/check-role/route.ts:5-47 | 401 iff no session email; 404 iff the email has no row; otherwise 200 with the stored role and `phoneVerified`, and `emailVerified` true iff the stored date is non-null; never writes |
| CheckRole.PhoneVerifiedCallerIsNotUser | app/api/auth/verify-phone/route.ts:119-127 | in a valid table a caller reported phone-verified is never a plain USER |
| VerifyPhone.PhoneClaimedByAnother | app/api/auth/verify-phone/route.ts:33-41 | `findFirst` with the formatted phone, `phoneVerified` true and a different email finds a row |
| VerifyPhone.PhoneClaimIgnoresOwnRow | app/api/auth/verify-phone/route.ts:37-39 | the caller's own row, whatever its phone and flag, never makes the number claimed |
| VerifyPhone.Post | app/api/auth/verify-phone/route.ts:7-146 | the handler with the body read once, the corrected member of "## Findings" (as written, 'verify' never gets past the second read): 401 without a session; 400 for a missing phone, a missing otp or another action; 400 when another account has verified the formatted phone; a 'send' writes only phone, OTP and expiry now + 600000, and an SMS failure answers 500 with the OTP kept; a 'verify' answers 404, 400 for a wrong or null token (before the expiry test) and 400 when expired (strict `<`); success writes phoneVerified, nulls token and expiry and sets ORGANIZER (also for an ADMIN) in one update, after which check-role reports ORGANIZER and phone-verified |
| VerifyPhone.SendThenVerify | app/api/auth/verify-phone/route.ts:51-127 | sending a code and typing it back before it expires makes the caller a phone-verified ORGANIZER |
| VerifyPhone.NewerOtpReplacesOlder | app/api/auth/verify-phone/route.ts:55-108 | after a second 'send', the first code is rejected as invalid |
| VerifyPhone.ReadJson | app/api/auth/verify-phone/route.ts:18 | a request body reads once; a second read yields nothing |
| VerifyPhone.VerifyPrefixAsWritten | app/api/auth/verify-phone/route.ts:7-89 | the handler as written up to the `otp` check: 401 without a session, 500 when the body was already read, only errors when it stops, and it goes on only for actions other than 'verify' |
| VerifyPhone.VerifyAsWrittenAlwaysFails | app/api/auth/verify-phone/route.ts:82 | as written, every authenticated 'verify' request ends in 500 |
| VerifyPhone.VerifyAsWrittenExample | app/api/auth/verify-phone/route.ts:82 | the same for a concrete request carrying the right code |
| EventsData.FilterCategory | lib/events-data.ts:185-187 | an event is kept iff its category equals the argument ignoring case; never longer than the input |
| EventsData.FilterCategoryConcat | lib/events-data.ts:185-187 | filtering distributes over concatenation, so it is the order-preserving subsequence of matches |
| EventsData.Filtered | lib/events-data.ts:181-187 | never longer than the input; an event is kept iff it is in the input and the category is undefined, empty or 'All' or equals the event's ignoring case |
| EventsData.PageWindow | lib/events-data.ts:191-193 | page n is the clamped window from the end of page n-1 to page n*limit |
| EventsData.Page | lib/events-data.ts:190-200 | total is the filtered length; at most `limit` events, exactly filtered[(page-1)*limit .. min(page*limit, total)]; hasMore iff page*limit < total |
| EventsData.EventsByCategory | lib/events-data.ts:176-201 | total is the filtered length whatever the page and limit, all events without a filter; every listed event is in the data and matches the category; the defaults are page 1 and limit 6 |
| EventsData.GetEventsByCategory | lib/events-data.ts:176-201 | over `allEventsData`: total at most its length, all of it without a filter, and every listed event is one of the twelve and matches the category |
| EventsData.LastPageHasNoMore | lib/events-data.ts:194 | the page holding the last event reports hasMore false and holds the remaining events |
| EventsData.PagesArePrefix | lib/events-data.ts:191-193 | pages 1..n concatenated are the first min(n*limit, total) filtered events, so pages are disjoint and adjacent |
| EventsData.DefaultListing | lib/events-data.ts:4-201 | with no arguments the first six of the twelve events are listed and more remain |
| EventsRoute.Where | app/api/events/route.ts:8-14 | a filter applies iff the category is non-empty and not 'All' |
| EventsRoute.Matching | app/api/events/route.ts:12-31 | a row matches iff it meets the `where` clause; `{}` matches all |
| EventsRoute.FindMany | app/api/events/route.ts:17-21 | at most `take` rows, each a row of the table meeting `where`; with skip 0 and a large take, all matching rows |
| EventsRoute.Count | app/api/events/route.ts:31 | at most the number of rows, all of them for `{}`, and 0 iff no row meets `where` |
| EventsRoute.SkipTake | app/api/events/route.ts:19-20 | skip/take is the subrange from skip of at most take rows |
| EventsRoute.Transform | app/api/events/route.ts:34-47 | price is Free iff isFree, else the stored amount; id, title, slug, category and the flags are copied |
| EventsRoute.TransformAll | app/api/events/route.ts:34 | `map` keeps the length and transforms each element |
| EventsRoute.Get | app/api/events/route.ts:5-53 | defaults 1 and 6; total counts all matching rows; at most `limit` events, the ones after the first (page-1)*limit matches; hasMore iff page*limit < total |
| EventsRoute.GetWindow | app/api/events/route.ts:17-21 | the route lists matching[(page-1)*limit .. min(page*limit, total)] transformed |
| EventsRoute.WindowsAgree | app/api/events/route.ts:51 | the route's skip/take equals the in-memory slice, and `endIndex < total` equals `page*limit < total` |
| EventsRoute.SameFilter | app/api/events/route.ts:12-14 | the route's `where` selects exactly the events the in-memory filter keeps |
| Cloudinary.Segments | lib/cloudinary.ts:8-14 | the pieces start with the quality piece, "auto" by default |
| Cloudinary.SegmentsOrder | lib/cloudinary.ts:10-14 | quality only first, then width, height, crop in that order |
| Cloudinary.SegmentsPresence | lib/cloudinary.ts:8-14 | each of width, height and crop is present iff its option is truthy (crop defaulting to "fill"), and then carries that option's value |
| Cloudinary.JoinSnoc | lib/cloudinary.ts:12-14 | `+=` of one more piece appends its text |
| Cloudinary.JoinPrefix | lib/cloudinary.ts:10 | the rendering begins with the first piece's text |
| Cloudinary.Transformations | lib/cloudinary.ts:8-14 | the built string is the rendering of the reference pieces and starts with "q_" + quality |
| Cloudinary.GetCldImageUrl | lib/cloudinary.ts:1-17 | the URL is the fixed host, the cloud name ("undefined" when unset), "/image/upload/", the transformations, "/" and the public id |
| Cloudinary.DefaultTransformations | lib/cloudinary.ts:8-14 | without options the transformations are "q_auto,c_fill" |
| Cloudinary.FalsyOptions | lib/cloudinary.ts:12-14 | width 0 and crop "" are left out while quality 0 is written: "q_0" |

## Left out

- Sending SMS (Twilio `sendOTP`) and email (Resend `sendVerificationEmail`): their outcome is a boolean parameter; message text and the providers' own behaviour are external.
- `Math.random` is floating point: `Sms.GenerateOtp` takes the integer draw `Math.floor(Math.random() * 900000)` instead.
- `crypto.randomBytes`: its 32 bytes are a parameter.
- Bcrypt.Hash: salt and cost factor are not modelled; the digest is an ideal collision-free function of the first 72 characters of the password. bcrypt's cut-off is 72 UTF-8 bytes, which is 72 characters only for ASCII passwords; a password with multi-byte characters is cut earlier, and that is not modelled.
- NextAuth and PrismaAdapter internals (JWT signing, cookies, OAuth account linking, turning a thrown `authorize` error into a sign-in error) are library code; only the shown callbacks and the provider list are modelled.
- The session lookup `auth()` is the `sessionEmail` parameter.
- Concurrent requests and last-write-wins races at the database are not modelled; each handler runs against one snapshot.
- Database failures that are modelled: the unique-constraint failures above, and the verify-phone 'send' update of a caller with no row, which throws and answers 500. Other database failures (a connection error answered 503 by signup, or 500 by the other catch blocks) are not modelled.
- An unparseable request body is not modelled: every body is taken as parsed. In the code `await request.json()` then throws into the catch block, and the route answers 500: "Failed to create user" in signup, "Failed to verify email" in verify-email POST, "Failed to process phone verification" in verify-phone.
- Prisma ordering: the events route's rows are taken as already sorted by date.
- `toLocaleString` of the price and `toLocaleDateString` of the date are locale-dependent; the model keeps the number and the instant.
- EventsData.Page: requires page >= 1 and limit >= 0; JavaScript `slice` with negative ends (page < 1) is not modelled.
- EventsRoute.Get: requires page >= 1 and limit >= 0; `parseInt` giving NaN and Prisma's handling of negative skip or take are not modelled.
- Js.ToLower: maps only the ASCII letters; the full Unicode case mapping of `toLowerCase` and of Prisma's insensitive mode is not modelled.
- Signup.Post: the 6-character password minimum counts Dafny characters, which differ from JavaScript's UTF-16 code units for characters outside the Basic Multilingual Plane.
- JSON fields of a non-string type (a number as `email`, an array as `action`) are not modelled; every body field is a string or absent.
- Numbers.IntToString: renders integers only; a fractional `quality`, `width` or `height` in the Cloudinary options is not modelled, and NaN is not a value of the model. JavaScript writes numbers of 10^21 or more in exponent form ("1e+21") and holds integers exactly only up to 2^53; the model's unbounded integers always render in plain digits.
- `console.log` and `console.error` output is not modelled.

## Findings

| source | as written | input that shows it | evidently intended | confidence | as-written member | corrected member |
|---|---|---|---|---|---|---|
| app/api/auth/verify-phone/route.ts:82 | the 'verify' branch calls `request.json()` a second time, after line 18 already consumed the body; under the Fetch API the second read rejects, and the catch block answers 500 | an authenticated POST with body `{"action": "verify", "otp": "123456"}` whose code equals the stored OTP | read `otp` from the body parsed at line 18, so the right code verifies the phone and upgrades the caller to ORGANIZER | not executed | VerifyPhone.VerifyPrefixAsWritten, VerifyPhone.VerifyAsWrittenAlwaysFails | VerifyPhone.Post |
