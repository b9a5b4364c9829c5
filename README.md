# bun-backend core, modelled in Dafny

This project models the logic of the bun-backend user service, a Bun/Express
back end that registers users with a Keycloak identity provider and a local
Prisma user table. The model covers:

- the Zod input schemas for creating and updating a user, with their
  corporate-user refinement (`UserValidator`);
- the coloured console/file logger: ANSI stripping, message assembly, date
  formatting, day-based log paths and the `logFactory` object with its
  mutable id (`Logger`);
- the bearer-token gate and the final error handler of the HTTP layer
  (`AuthMiddleware`, `ErrorMiddleware`);
- the Keycloak client calls (`KeycloakService`) and the registration saga
  built on them. Registration creates the remote identity and then the local
  row. If the local write fails, a compensating delete follows. Login and
  logout map their results (`AuthService`);
- the in-memory user table (`UserService`);
- the script that rebuilds `schema.prisma` from its header and the files of
  `prisma/models` (`MergePrisma`).

Two small support modules hold the `Option`/`Result` wrappers
(`Wrappers`) and the JavaScript string operations the code relies on
(`Text`). `Text` covers `startsWith`, `endsWith`, `replace` with a string
and with a global pattern, `trim`, `padStart`, `slice(-2)`, `String(n)`
and `split('/').pop()`, with JavaScript's `\s` and `\w` classes written out.

Where the code changes state in place, the model is imperative:

- `Logger.Log` holds `currentId` and the level handlers that `logFactory`
  attaches in a loop;
- `UserService.UserTable` holds the `users` array;
- `KeycloakService.Keycloak` holds the provider's identities and the
  requests sent to it;
- `AuthService.Service` holds both stores of the registration saga;
- `AuthMiddleware.Exchange` holds the request and response state the
  middleware touches.

Each state-changing method is proved equal to a step function on values, and
the properties are proved about those functions. `Logger.FormatDate` and
`MergePrisma.ConcatModels` keep the source's loops and are proved against
the functions `ApplyAll` and `Sections`.

Collaborators the code only calls are parameters of the model:

- the answers of the identity provider and of the local store, one
  `Result` per request, so each request may fail;
- the token verifier;
- the email-format check;
- the clock;
- `NODE_ENV`;
- the schema text and the directory listing of the merge script.

Three behaviours of the registration path, as the code has them:

- Identities are created already enabled and email-verified
  (src/modules/auth/keycloak.service.ts:38-39).
- No activation token or activation email is produced anywhere in
  registration (src/modules/auth/auth.service.ts:8-26).
- When the local write fails and the compensating delete fails too, the
  delete's error propagates and the write's error is lost
  (src/modules/auth/auth.service.ts:23-25).

## Model

| member | source | states |
|---|---|---|
| UserValidator.UserTypeIssues | src/schemas/user.validator.ts:3-5 | `userType` passes iff it is exactly `INDIVIDUAL` or `CORPORATE` (or absent where optional); otherwise there is exactly one issue, which aborts the parse and carries the enum's message |
| UserValidator.NameIssues | src/schemas/user.validator.ts:53-60 | a first or last name has no issue iff its JavaScript length (UTF-16 units) is 2 to 50; its issues never abort and sit at the field's path |
| UserValidator.EmailIssues | src/schemas/user.validator.ts:50-52 | no issue iff the email-format predicate holds and the string is non-empty |
| UserValidator.PhoneIssues | src/schemas/user.validator.ts:61-63 | no issue iff the phone matches `^\+?[0-9\s\-()]{7,20}$` |
| UserValidator.PhoneRule | src/schemas/user.validator.ts:61-63 | the phone pattern read directly: an optional leading `+`, then 7 to 20 characters, each a digit, JavaScript whitespace, `-`, `(` or `)` |
| UserValidator.CompanyNameIssues | src/schemas/user.validator.ts:65-69 | a company name has no issue iff its JavaScript length (UTF-16 units) is 2 to 100 |
| UserValidator.TaxNumberIssues | src/schemas/user.validator.ts:70-73 | a tax number has no issue iff it is 10 or 11 ASCII digits |
| UserValidator.TaxOfficeIssues | src/schemas/user.validator.ts:74-77 | a tax office has no issue iff its JavaScript length (UTF-16 units) is at least 2 |
| UserValidator.CreateAccepts | src/schemas/user.validator.ts:47-103 | the create schema reports no issue iff: every required field is present and valid; every optional field that is present is valid; and a `CORPORATE` user has a non-empty company name, tax number and tax office |
| UserValidator.CorporateCheck | src/schemas/user.validator.ts:79-103 | for a corporate user, each falsy company field yields exactly one custom issue at its own path, in the order company name, tax number, tax office, and no other issue |
| UserValidator.CreateFieldsNoCustom | src/schemas/user.validator.ts:47-78 | the field rules never produce a custom issue |
| UserValidator.NonCorporateFieldsOnly | src/schemas/user.validator.ts:79-80 | for any user type other than `CORPORATE` the issues are exactly the field issues, so there is no custom issue |
| UserValidator.CorporateCreate | src/schemas/user.validator.ts:79-103 | a corporate user whose required fields are all present gets the field issues followed by the corporate issues |
| UserValidator.AbortSkipsCorporateCheck | src/schemas/user.validator.ts:47-103 | a missing required field or an invalid user type aborts the parse before the refinement, so no corporate issue is reported |
| UserValidator.UpdateAccepts | src/schemas/user.validator.ts:106-165 | the update schema reports no issue iff every present field is valid and an explicitly corporate user names all three company fields; the empty object passes; without an explicit `CORPORATE` user type the issues are exactly the field issues |
| UserValidator.AstralNameTooLong | src/schemas/user.validator.ts:53-56 | a first name of 26 emoji (26 characters, 52 UTF-16 units) is reported as too long |
| Text.Utf16LengthAstral | src/schemas/user.validator.ts:53-77 | `length` counts every character beyond U+FFFF twice (the partner `Text.Utf16LengthBmp`: within the Basic Multilingual Plane it counts characters) |
| Logger.LevelTable | src/utils/logger.ts:44-81 | the level keys are exactly the keys of the level table, without repetition, and every theme in it is made of colour codes |
| Logger.AnsiCodeLen | src/utils/logger.ts:119-121 | a code matched at the front has length 4 or 5, starts with ESC and is ESC `[`, one or two digits, `m` |
| Logger.StripAnsi | src/utils/logger.ts:119-121 | stripping never lengthens the text |
| Logger.StripPlainPrefix | src/utils/logger.ts:119-121 | text without ESC is kept as it is, in front of whatever the rest strips to |
| Logger.StripWithoutEsc | src/utils/logger.ts:119-121 | a string without ESC is returned unchanged |
| Logger.StripCodePrefix | src/utils/logger.ts:119-121 | a colour code at the front is removed whole |
| Logger.TimestampOfIso | src/utils/logger.ts:102 | an ISO instant `<date>T<time>Z` becomes `<date> <time>` |
| Logger.MessageFrame | src/utils/logger.ts:101-117 | every line starts with the reset code, the timestamp colour, `[timestamp]` and the reset code, and ends with the formatted arguments followed by the reset code |
| Logger.StripMessage | src/utils/logger.ts:101-121 | stripping a line leaves `[timestamp]`, then ` - [id:<id>]` iff the id is non-empty, then ` - [<level>]` iff the level is non-empty, then ` - ` and the space-joined arguments |
| Logger.Padded | src/utils/logger.ts:133-137 | a padded field is all digits and at least two long |
| Logger.PaddedValue | src/utils/logger.ts:133-137 | a field below 100 is written with exactly two digits that denote it |
| Logger.YearSuffix | src/utils/logger.ts:141 | `YY` is the year modulo 100 in two digits, for years from 10 on |
| Logger.Replacements | src/utils/logger.ts:139-152 | the table pairs the twelve tokens, in declaration order, each with its own value; every token starts with a token letter and every value is digits |
| Logger.TokenValuesDenote | src/utils/logger.ts:132-152 | `YYYY` gives the year, `YY` the year modulo 100 in two digits (from year 10 on); for month, day, hours, minutes and seconds the one-letter token gives the field's digits without leading zero and the two-letter token the same digits with one `0` in front below 10 |
| Logger.FormatDate | src/utils/logger.ts:131-160 | the loop's result is the format with every token's occurrences replaced, token after token, in table order |
| Logger.FormatWithoutTokens | src/utils/logger.ts:154-159 | a format without token letters is returned unchanged |
| Logger.DefaultFormat | src/utils/logger.ts:131-160 | the default `YYYYMMDD` gives the year followed by the two-digit month and the two-digit day |
| Logger.JoinSplit | src/utils/logger.ts:166-169 | joining a directory with a name that has no `/` gives a path whose directory and base name are those two again |
| Logger.DayBasedPathShape | src/utils/logger.ts:162-170 | the day-based path keeps the directory and puts the formatted date and `-` in front of the base name |
| Logger.Log.constructor | src/utils/logger.ts:172-207 | the options' defaults are applied (stdout unless it is explicitly `false`, day-based files only if explicitly `true`, format `YYYYMMDD`, the default theme) and a handler with its own theme and level name is attached for every level key except `default` |
| Logger.Log.Id | src/utils/logger.ts:209-212 | `id(newId)` sets the id every handler reads and returns the same logger |
| Logger.Log.Emit | src/utils/logger.ts:182-198 | a call writes the coloured line to stdout iff `toStdout`, and appends the stripped line plus a newline to a file iff a path is set; the file is the day-based one iff `dayBasedFileLog` |
| Logger.Log.LevelFileLine | src/utils/logger.ts:194-207 | a level handler's file line is the plain message with the level name as its level segment |
| Logger.IdReachesHandlers | src/utils/logger.ts:180-212 | after `id(x)` every level handler's stdout line carries `x` as its id |
| ErrorMiddleware.ErrorText | src/middlewares/error.middleware.ts:24 | the error text is the message, or `Unknown error` when the message is absent or empty |
| ErrorMiddleware.ErrorResponse | src/middlewares/error.middleware.ts:12-28 | an `AppError` answers with its own status and only its message; anything else answers 500 `Internal Server Error`; the body carries the error text and the error's stack iff `NODE_ENV` is not `production` |
| ErrorMiddleware.AppErrorRoundTrip | src/middlewares/error.middleware.ts:3-19 | the constructor's message and status come back unchanged in the response, in every environment |
| ErrorMiddleware.OtherErrorsAlike | src/middlewares/error.middleware.ts:21-27 | every non-`AppError` gets status 500, and in production every one gets the same response |
| AuthMiddleware.Classify | src/middlewares/auth.middleware.ts:9-16 | a header is rejected iff it is absent or lacks the `Bearer ` prefix; the token is empty iff the header is exactly `Bearer `; otherwise the token is the non-empty rest after the prefix |
| AuthMiddleware.TokenIsRest | src/middlewares/auth.middleware.ts:13 | the token handed to the verifier is the header without its first seven characters |
| AuthMiddleware.AsWritten | src/middlewares/auth.middleware.ts:5-25 | a rejected header returns `AppError('Unauthorized', 401)` with no verification, response or `next`; an empty token sends a 401 `Unauthorized` without verification; a verified token sets `req.user` and calls `next()` once; a failed verification returns `AppError('Invalid token', 401)` and does not call `next` |
| AuthMiddleware.Intended | src/middlewares/auth.middleware.ts:5-25 | the corrected middleware passes both rejections to `next(error)` and otherwise behaves as written |
| AuthMiddleware.AsWrittenLeavesRequestOpen | src/middlewares/auth.middleware.ts:9-11 | as written, a request without the header gets neither a response nor a `next` call |
| AuthMiddleware.AsWrittenInvalidTokenOpen | src/middlewares/auth.middleware.ts:18-24 | as written, a request whose token fails verification gets neither a response nor a `next` call |
| AuthMiddleware.IntendedAlwaysCompletes | src/middlewares/auth.middleware.ts:9-24 | corrected, every request completes, and every rejection reaches the client through the error handler as a 401 with `Unauthorized` or `Invalid token` |
| AuthMiddleware.Exchange.Handle | src/middlewares/auth.middleware.ts:5-25 | one run changes the request user, the response, the `next` calls and the verifier calls exactly as `AsWritten` says, and returns what it returns |
| AuthMiddleware.Exchange.HandleIntended | src/middlewares/auth.middleware.ts:5-25 | the corrected run changes the state exactly as `Intended` says |
| KeycloakService.UserPath | src/modules/auth/keycloak.service.ts:66 | the update and delete path is `users/` followed by exactly the id |
| KeycloakService.CreatePayload | src/modules/auth/keycloak.service.ts:33-48 | username and email are the given email, missing names become `''`, the identity is enabled and email-verified with no required actions, and there is one non-temporary password credential holding the password |
| KeycloakService.TokenStep | src/modules/auth/keycloak.service.ts:6-20 | one `client_credentials` token request is sent and its reply is returned |
| KeycloakService.CreateStep | src/modules/auth/keycloak.service.ts:22-80 | the creation request is sent first; any status but 201 fails with `Keycloak user creation failed`, creates nothing and sends no update; on 201 the identity named by the last segment of `Location` exists, exactly one update marking it verified follows, and its id is returned unless the update fails |
| KeycloakService.DeleteStep | src/modules/auth/keycloak.service.ts:82-88 | one delete request for `users/{id}` is sent, and on success that identity is gone |
| Text.LastSegment | src/modules/auth/keycloak.service.ts:63 | `split('/').pop()` is a suffix of the location without `/`, preceded by `/` unless it is the whole string |
| KeycloakService.LocationNamesIdentity | src/modules/auth/keycloak.service.ts:62-63 | a location `<collection>/<id>` yields exactly the id |
| KeycloakService.TrailingSlashLocation | src/modules/auth/keycloak.service.ts:62-63 | a location ending in `/` yields the empty id |
| KeycloakService.CreateThenDelete | src/modules/auth/keycloak.service.ts:22-88 | creating a fresh identity and deleting it again leaves the provider's identities as they were |
| KeycloakService.Keycloak.GetAdminToken | src/modules/auth/keycloak.service.ts:6-20 | the provider's new state and the result are exactly `TokenStep` |
| KeycloakService.Keycloak.CreateUser | src/modules/auth/keycloak.service.ts:22-80 | the provider's new state and the result are exactly `CreateStep` |
| KeycloakService.Keycloak.DeleteUser | src/modules/auth/keycloak.service.ts:82-88 | the provider's new state and the result are exactly `DeleteStep` |
| AuthService.RemoteFailureLeavesLocal | src/modules/auth/auth.service.ts:8-11 | if the admin token, the creation or the verification update fails, no local row is written, no delete is sent and registration fails; an identity whose update failed stays on the provider |
| AuthService.RegisterSuccess | src/modules/auth/auth.service.ts:8-22 | a successful registration appends exactly one row. The row holds the new identity's id, the email and the user type. It is returned after the token, creation and update requests, and no delete is sent. The creation request carries the body's email, password, first name and last name, a missing name as `''` |
| AuthService.RegisterCompensates | src/modules/auth/auth.service.ts:23-25 | when the local write fails, exactly one delete follows, with the same admin token and the new id. A successful delete removes the identity, restores a fresh identity's provider state and rethrows the write's error. A failing delete's error propagates instead, and the identity stays |
| AuthService.RegisterKeepsLinked | src/modules/auth/auth.service.ts:8-27 | with a fresh id, registration keeps every identity matched by a row and every row matched by an identity, unless the verification update fails or both the local write and the compensating delete fail |
| AuthService.LinkedAppend | src/modules/auth/auth.service.ts:14-20 | adding an identity together with its row keeps the two stores linked |
| AuthService.OrphanUnlinked | src/modules/auth/auth.service.ts:23-25 | a new identity without a row breaks the link |
| AuthService.LoginStep | src/modules/auth/auth.service.ts:29-55 | one password-grant request is sent. Success maps `access_token`, `refresh_token` and `expires_in` to `accessToken`, `refreshToken` and `expiresIn`. Any failure becomes `Invalid credentials` |
| AuthService.LogoutStep | src/modules/auth/auth.service.ts:57-77 | one logout request is sent; the result is `true`, or `Logout failed` on any failure; no identity or row changes |
| AuthService.Service.Register | src/modules/auth/auth.service.ts:8-27 | the provider's new state, the new local rows and the result are exactly `RegisterStep` |
| AuthService.Service.Login | src/modules/auth/auth.service.ts:29-55 | the provider's new state and the result are exactly `LoginStep` |
| AuthService.Service.Logout | src/modules/auth/auth.service.ts:57-77 | the provider's new state and the result are exactly `LogoutStep` |
| UserService.FirstWithId | src/services/user.service.ts:13 | the index found holds a user with the id, and no earlier user has it; there is none iff no user has the id |
| UserService.SeedLookup | src/services/user.service.ts:3-6 | the initial table answers ids 1 and 2 with its two users and nothing else |
| UserService.LookupAfterAppend | src/services/user.service.ts:12-18 | appending a user leaves every existing lookup as it was and answers a previously unused id with the new user |
| UserService.DuplicateIsShadowed | src/services/user.service.ts:12-18 | after appending a user whose id is already taken, `findById` still returns the earlier user |
| UserService.UserTable.constructor | src/services/user.service.ts:3-6 | the table starts with the two seed users |
| UserService.UserTable.FindAll | src/services/user.service.ts:9-11 | the whole current table is returned |
| UserService.UserTable.FindById | src/services/user.service.ts:12-14 | the linear scan returns the first user with the id, and `None` iff no user has it |
| UserService.UserTable.Create | src/services/user.service.ts:15-18 | the user is appended at the end and returned; the table grows by one and every earlier user is unchanged |
| MergePrisma.KeywordLen | scripts/merge-prisma.ts:10 | a keyword matched at the front has length 4 or 5 |
| MergePrisma.Match | scripts/merge-prisma.ts:10 | a match of the rest of the pattern is non-empty and lies within the text |
| MergePrisma.MatchEndsAtBrace | scripts/merge-prisma.ts:10 | a match of the rest of the pattern ends with the body's closing `}` |
| MergePrisma.BlockLen | scripts/merge-prisma.ts:10 | a block matched at the front lies within the text, starts with a keyword and ends with `}` |
| MergePrisma.StripBlocks | scripts/merge-prisma.ts:10 | the header is never longer than the schema |
| MergePrisma.DeleteKeeps | scripts/merge-prisma.ts:10 | in a global replacement by `''`, text at which no match starts is kept in front of what the rest becomes |
| MergePrisma.DeleteLeading | scripts/merge-prisma.ts:10 | a match at the front is deleted whole |
| MergePrisma.RunOf | scripts/merge-prisma.ts:10 | a `\s+` or `\w+` part takes its whole non-empty run, then the next part matches from the first character outside it |
| MergePrisma.RunEnd | scripts/merge-prisma.ts:10 | a `\s+` or `\w+` part fails when it has taken nothing and hands over when its run ends |
| MergePrisma.BodyOf | scripts/merge-prisma.ts:10 | the body `[^}]*}` runs up to and including the first `}` |
| MergePrisma.BlockMatches | scripts/merge-prisma.ts:10 | a keyword, whitespace, a name, whitespace and a braced body without `}` is matched whole, whatever follows |
| MergePrisma.BodyShape | scripts/merge-prisma.ts:10 | what `[^}]*}` matches is text without `}` followed by one `}` |
| MergePrisma.BlockShape | scripts/merge-prisma.ts:10 | conversely, everything the pattern matches at the front is a keyword, whitespace, a name, whitespace and a braced body without `}` |
| MergePrisma.StripLeadingBlock | scripts/merge-prisma.ts:10 | such a block at the front of the schema is removed from the header |
| MergePrisma.StripKeeps | scripts/merge-prisma.ts:10 | text at which no block starts is kept in the header in front of what the rest becomes |
| MergePrisma.StripWithoutBlocks | scripts/merge-prisma.ts:10 | a schema in which no block starts anywhere is its own header |
| MergePrisma.NoKeywordLetters | scripts/merge-prisma.ts:10 | a schema without `m`, `e` or `t` is its own header |
| MergePrisma.BraceInBodyLeavesTail | scripts/merge-prisma.ts:10 | a block ends at its first `}`: a `}` inside the body ends the deleted text early and leaves the rest of the declaration in the header |
| MergePrisma.PrismaFiles | scripts/merge-prisma.ts:12 | exactly the listed files whose names end in `.prisma` are kept |
| MergePrisma.PrismaFilesConcat | scripts/merge-prisma.ts:12 | the filter keeps listing order: filtering a concatenation concatenates the filtered parts |
| MergePrisma.SectionShape | scripts/merge-prisma.ts:20-21 | a file contributes the banner `\n\n// ===== <name> =====\n\n` followed by its unchanged content |
| MergePrisma.SectionsSnoc | scripts/merge-prisma.ts:16-22 | one more file appends its section at the end |
| MergePrisma.SectionsConcat | scripts/merge-prisma.ts:16-22 | the sections of two file lists follow one another |
| MergePrisma.ConcatModels | scripts/merge-prisma.ts:14-22 | the loop builds the files' sections in listing order |
| MergePrisma.Merge | scripts/merge-prisma.ts:8-26 | the written schema is the trimmed header, a newline, and the sections of the `.prisma` files |
| MergePrisma.NoModelFiles | scripts/merge-prisma.ts:24 | with no `.prisma` file the schema is the trimmed header and a newline |
| MergePrisma.ModelsOfListing | scripts/merge-prisma.ts:12-22 | a listed file contributes its section exactly where it stands in the listing iff its name ends in `.prisma` |
| Text.TrimIsSlice | scripts/merge-prisma.ts:24 | `trim` removes exactly the leading and trailing JavaScript whitespace |
| Text.ReplaceFirstOfPrefix | src/middlewares/auth.middleware.ts:13 | replacing the first occurrence of a prefix the string starts with replaces that prefix |
| Text.NatToStringRoundTrip | src/utils/logger.ts:132-151 | `String(n)` of a natural number reads back as `n` |

## Left out

- Input and output are not modelled: `console.log`, `console.error`, `fs.appendFileSync`, `readFileSync`, `readdirSync` and `writeFileSync`. The logger returns the writes it would perform. The merge script takes the schema text and the listing with file contents as inputs.
- The real clock and `tzOffset` are not modelled. The timestamp is taken as an ISO string and the local date fields as values. Negative years are outside the model, because date fields are natural numbers.
- `formatArgs` is modelled for string arguments only. `JSON.stringify` of objects is not modelled.
- `path.dirname`, `path.basename` and `path.join` are modelled on `/` separators only, with no normalisation of `.` or `..`.
- UserValidator.CreateAccepts, UserValidator.UpdateAccepts: a field is either absent or a string. A field sent as `null`, a number or any other non-string value cannot be expressed; Zod reports a fatal `invalid_type` issue for it, for an `.optional()` field too.
- `z.email` is an uninterpreted parameter. Only the issue codes, paths and messages the model needs are represented.
- Token verification is the parameter `verify`. The JWKS check of src/utils/auth.ts is not part of this model.
- HTTP requests and Prisma writes are replaced by their replies, one `Result` per request. Not modelled:
  - base URLs and the realm;
  - headers;
  - client credentials;
  - the local row's generated fields.
- A creation reply without a `Location` header is not modelled, because the location is a string. In the code that case throws a `TypeError` at the `split`.
- AuthMiddleware.AsWritten: an exception thrown by `next()` itself would also be caught and turned into `Invalid token`. This is not modelled, because `next` is Express's.
- UserService.UserTable.FindAll: returns the table as a value. The code hands out the array itself, so later `create` calls are visible through it. That aliasing is not modelled.
- Concurrency between requests and the ordering of asynchronous calls are not modelled. Each operation runs to completion.
- Express wiring, routing, controllers, Swagger, the mail transport and the not-found handler are not part of this model.
- MergePrisma: the script's final `console.log` is not modelled.

## Findings

| source | as written | input that shows it | evidently intended | confidence | as-written member | corrected member |
|---|---|---|---|---|---|---|
| src/middlewares/auth.middleware.ts:10,23 | the rejections are `return new AppError(...)` from an async middleware, so the value is ignored: no response is sent and `next` is not called | a request without an `Authorization` header, or one whose token the verifier rejects | `next(new AppError(...))` (or `throw`), so the error handler answers 401 | high (not executed) | AuthMiddleware.AsWrittenLeavesRequestOpen | AuthMiddleware.IntendedAlwaysCompletes |
