# echobot-backend: record factory, counters, seeding and user payloads

This project models the core of a NestJS backend that fills its database with
synthetic users, posts and comments. The **record factory** reads a per-entity
**counter**. It then fetches `Math.ceil(count / 10)` pages of template records
from a sample REST source and keeps the first `count` of them. Each kept record
gets the suffix `_<counter + index + 1>` on its identifying fields. Last, the
factory advances the counter by the number of records it produced. The
**seeder** only enqueues one `{count}` job per entity queue.

The **users service** does three things:

- it turns a validated `CreateUserDto` into a nested create payload;
- it turns an update body into a sparse patch;
- it maps database errors to HTTP 500 errors.

A **middleware** rejects `POST`, `PATCH` and `DELETE`.

Modules, one per file:

- `Wrappers`: `Option` and `Result`.
- `Http`: status codes and the HTTP error value.
- `Strings`: the JavaScript string operations the factory uses:
  - `split(c)`, whose piece `[0]` always exists and whose piece `[1]` reads "undefined" when there is no separator;
  - decimal rendering of a number in a template literal;
  - the suffix `s + "_" + n`, proved injective.
- `UserDto`: the create-user body and its class-validator rules.
- `Counter`: the counter table as a class over a `map<string, nat>`.
- `Factory`: the three generators.
- `Seeder`: three queues as classes holding `seq<Job>`.
- `UsersService`: the payload builders, the error classifier, and the error flow of `findOne` and `update`.
- `DisableMethods`: the method gate.

In the model's terms:

- The sample REST source is an oracle `fetch: nat -> Response<T>`. `fetch(i)` is the answer to the i-th GET of one generator call: a page of templates, or a failed request.
- Each database answer is a parameter.
- `FactoryService` keeps a `requestLog` of the URLs it has requested, so the contracts can state how many requests each call sends.
- `Synthesize` is the specification of one generator call.
- `FactoryService.Generate` is the imperative body the three generators share. Its contract ties its result, the new counter table and the request log to `Synthesize`.

Three facts about the code that the model keeps:

- Each seeding method enqueues one job and does nothing else (src/database/seeder.service.ts:20-43). A seed processor only calls its generator with the job's `count` and rethrows its error, so no job starts other jobs (src/database/seeders/user-seed-processor.ts:27-37, post-seed-processor.ts:27-37, comment-seed-processor.ts:27-39).
- A job carries only `{count}`, and generated posts and comments carry no user or post id (src/database/factory.service.ts:91-94 and 129-133).
- The counter is read once before fetching (src/database/factory.service.ts:33) and incremented once afterwards (:59). These are two separate steps, not one atomic reservation.

## Model

| member | source | states |
|---|---|---|
| Strings.Before | src/database/factory.service.ts:47-49 | `s.split(c)[0]`: by BeforeFirst it is the text before the first `c`, and by Split the whole string when there is none |
| Strings.ElementOrUndefined | src/database/factory.service.ts:47 | `parts[k]` as a template literal prints it; RewriteEmailNoAt shows the "undefined" case |
| Strings.Split | src/database/factory.service.ts:47-49 | `split(c)` always yields at least one piece; the first piece is the longest prefix without `c`, and the character after it, if any, is `c` |
| Strings.JoinSplit | src/database/factory.service.ts:47-49 | joining the pieces of `split(c)` with `c` gives back the original string |
| Strings.SplitPiecesFree | src/database/factory.service.ts:47-49 | no piece produced by `split(c)` contains `c` |
| Strings.BeforeFirst | src/database/factory.service.ts:47-49 | `split(c)[0]` of `p + c + rest` is `p` when `p` has no `c` |
| Strings.SplitOneSeparator | src/database/factory.service.ts:47 | a string with exactly one `c` splits into exactly the two parts around it |
| Strings.NatToString | src/database/factory.service.ts:45-46 | a number interpolated into a template literal is a non-empty string of decimal digits; NatToStringCanonical adds that it has no leading zero and ParseNatToString that it reads back as the number |
| Strings.NatToStringCanonical | src/database/factory.service.ts:45-46 | the printed number has no leading zero: it starts with `0` exactly when the number is 0 |
| Strings.ParseNatToString | src/database/factory.service.ts:45-46 | reading the interpolated digits back gives the number |
| Strings.NatToStringInjective | src/database/factory.service.ts:45-46 | different numbers are interpolated as different text |
| Strings.Suffixed | src/database/factory.service.ts:46-54 | `${s}_${n}`; SuffixedInjective, SuffixNumberOfSuffixed and SuffixedAvoids state what it keeps apart |
| Strings.SuffixedInjective | src/database/factory.service.ts:46-54 | `${a}_${m}` equals `${b}_${n}` only when `a == b` and `m == n` |
| Strings.SuffixNumberOfSuffixed | src/database/factory.service.ts:45-54 | the number `n` can be read back from the trailing digits of `${s}_${n}`, whatever `s` is |
| Strings.SuffixedAvoids | src/database/factory.service.ts:47 | appending `_<n>` introduces no `@` (nor any other non-digit, non-`_` character) |
| UserDto.NonEmpty | src/users/dto/create-user.dto.ts:12-13 | `@IsString() @IsNotEmpty()`: the string is not empty |
| UserDto.ValidGeo | src/users/dto/create-user.dto.ts:10-20 | both coordinates are non-empty strings |
| UserDto.ValidAddress | src/users/dto/create-user.dto.ts:22-48 | street, suite, city and zipcode are non-empty and the nested geo is valid |
| UserDto.ValidCompany | src/users/dto/create-user.dto.ts:50-71 | name, catch phrase and bs are non-empty |
| UserDto.ValidUser | src/users/dto/create-user.dto.ts:73-113 | the five top-level strings are non-empty and both nested objects are valid; OnlyEmptinessIsChecked shows it checks nothing more |
| UserDto.OnlyEmptinessIsChecked | src/users/dto/create-user.dto.ts:10-112 | the rules check emptiness only: an email without `@` and non-numeric coordinates pass, and an empty nested field fails the whole user |
| Counter.Lookup | src/counter/counter.service.ts:8-13 | the stored count, 0 without a row; Upsert and GetCurrentCount are stated through it |
| Counter.Upsert | src/counter/counter.service.ts:15-21 | the upsert adds `incrementBy` to the entity's count (0 if absent) and creates the row if missing; no other row changes |
| Counter.SuccessiveIncrements | src/counter/counter.service.ts:16-20 | two increments of one entity add up, so the ranges they reserve follow each other |
| Counter.CounterService.GetCurrentCount | src/counter/counter.service.ts:8-13 | returns the stored count, 0 when the entity has no row, and changes nothing |
| Counter.CounterService.IncrementCount | src/counter/counter.service.ts:15-21 | the new table is the upsert of the old one; `incrementBy` defaults to 1 |
| Factory.Ceil10 | src/database/factory.service.ts:32 | `Math.ceil(count / 10)` is the unique `k` with `10(k-1) < count <= 10k`, negative counts included |
| Factory.PageRequests | src/database/factory.service.ts:32-35 | the loop runs no times for `count <= 0` and `ceil(count / 10)` times otherwise |
| Factory.Gather | src/database/factory.service.ts:35-40 | the pages concatenated up to the first failure; GatherSucceedsIff, GatherFirstFailure, GatherKeepsFailure and GatherFullPages characterise it, and FetchPages is proved equal to it |
| Factory.GatherSucceedsIff | src/database/factory.service.ts:35-40 | the page loop completes exactly when every one of its requests succeeds |
| Factory.GatherFirstFailure | src/database/factory.service.ts:35-40 | a failed page loop stops at its first failed request; every earlier request succeeded |
| Factory.GatherKeepsFailure | src/database/factory.service.ts:35-40 | after the first failure, further requests cannot change the outcome |
| Factory.GatherFullPages | src/database/factory.service.ts:35-40 | with full pages of 10 the loop collects exactly `10 * k` templates |
| Factory.IssuedRequests | src/database/factory.service.ts:35-40 | a call never sends more requests than planned, and sends exactly the planned number when none fails |
| Factory.SliceTo | src/database/factory.service.ts:43 | `slice(0, count)`, negative ends included; SynthesizeShape gives the length it leaves |
| Factory.Renumber | src/database/factory.service.ts:43 | `map((x, index) => rewrite(x, counter + index + 1))`; SynthesizeShape gives each element |
| Factory.Synthesize | src/database/factory.service.ts:29-69 | one generator call as a value; SynthesizeFailsIff, SynthesizeShape, SynthesizeFullPages and SynthesizeSuccessive characterise it, and Generate is proved equal to it |
| Factory.SynthesizeFailsIff | src/database/factory.service.ts:35-67 | a call fails exactly when one of its requests fails, and then with 500 `Failed to fetch <resource>` |
| Factory.SynthesizeShape | src/database/factory.service.ts:43-56 | a successful call returns `min(count, fetched)` records (none for `count <= 0`); record `i` is template `i` rewritten with `counter + i + 1` |
| Factory.SynthesizeFullPages | src/database/factory.service.ts:32-43 | with full pages a call returns exactly `count` records |
| Factory.SynthesizeSuccessive | src/database/factory.service.ts:33-59 | after a first call advances the counter by what it returned, a second call rewrites its record `j` with `counter + |first| + j + 1` |
| Factory.RewriteEmail | src/database/factory.service.ts:47 | the email rewrite; RewriteEmailLocalPart, RewriteEmailInjective, RewriteEmailOneAt and RewriteEmailNoAt characterise it |
| Factory.RewriteEmailLocalPart | src/database/factory.service.ts:47 | the local part of a rewritten email is the template's local part with the suffix |
| Factory.RewriteEmailInjective | src/database/factory.service.ts:47 | rewritten emails with different suffixes differ, whatever the templates |
| Factory.RewriteEmailOneAt | src/database/factory.service.ts:47 | `local@domain` becomes `local_n@domain` |
| Factory.RewriteEmailNoAt | src/database/factory.service.ts:47 | an email without `@` becomes `email_n@undefined` |
| Factory.RewriteUser | src/database/factory.service.ts:43-56 | the user spread with suffix `n`; RewriteUserFields, RewrittenUsersDiffer and RewriteUserNumbered characterise it |
| Factory.RewriteUserFields | src/database/factory.service.ts:43-56 | for a template in the sample's shape, the username, email local part, phone head, website head, company name, bs and `catch_phrase` get the suffix; name, address and `catchPhrase` are copied; `id` is the number |
| Factory.RewrittenUsersDiffer | src/database/factory.service.ts:45-54 | two users rewritten with different numbers differ in id, username, email, phone, website, company name, bs and catch phrase |
| Factory.RewriteUserNumbered | src/database/factory.service.ts:45-49 | a user rewritten with `n` has id `n`, and `n` can be read back from its username, email local part, phone and website |
| Factory.NumberedUsersDistinct | src/database/factory.service.ts:43-56 | users carrying consecutive numbers in order have increasing ids and pairwise different usernames, emails, phones and websites |
| Factory.NumberedUsersApart | src/database/factory.service.ts:43-59 | users carrying numbers in two ranges, the first wholly below the second, share no id, username or email |
| Factory.RenumberedUsersDistinct | src/database/factory.service.ts:43-56 | users rewritten in order are strictly increasing in id and pairwise distinct in username, email, phone and website |
| Factory.GeneratedUsersUnique | src/database/factory.service.ts:33-56 | the users of one call are numbered `counter + 1, counter + 2, ...` and no two share a username, email, phone or website |
| Factory.GeneratedUserIsValid | src/database/factory.service.ts:29-56 | a template with a name and a valid address yields a user that passes `CreateUserDto` validation |
| Factory.GeneratedUsersApart | src/database/factory.service.ts:43-59 | two calls whose number ranges do not overlap share no id, username or email |
| Factory.SuccessiveUserCallsDisjoint | src/database/factory.service.ts:33-59 | the second of two sequential user calls numbers its users after all of the first call's, and repeats no username or email |
| Factory.RewritePost | src/database/factory.service.ts:91-94 | the post rewrite; GeneratedPostsUnique and RewritePostNumbered state what it keeps |
| Factory.RewritePostNumbered | src/database/factory.service.ts:91-94 | `n` can be read back from both the title and the body of a post rewritten with `n` |
| Factory.GeneratedPostsNumbered | src/database/factory.service.ts:91-94 | post `i` of one call carries the number `base + i + 1` in its title and its body |
| Factory.GeneratedPostsUnique | src/database/factory.service.ts:91-94 | post `i` keeps only the template's title and body with suffix `counter + i + 1`; both are non-empty and never repeat within a call |
| Factory.NumberedPostsApart | src/database/factory.service.ts:91-97 | posts carrying numbers in two ranges, the first wholly below the second, share no title and no body |
| Factory.GeneratedPostsApart | src/database/factory.service.ts:91-97 | posts of two calls whose number ranges do not overlap share no title and no body |
| Factory.SuccessivePostCallsDisjoint | src/database/factory.service.ts:81-97 | after a first post call advances the `Post` counter, a second call repeats no title and no body of the first |
| Factory.RewriteComment | src/database/factory.service.ts:129-133 | the comment rewrite; RewriteCommentFields and RewriteCommentNumbered characterise it |
| Factory.RewriteCommentNumbered | src/database/factory.service.ts:129-133 | `n` can be read back from the name, the email local part and the body of a comment rewritten with `n` |
| Factory.GeneratedCommentsNumbered | src/database/factory.service.ts:129-133 | comment `i` of one call carries the number `base + i + 1` in its name, email local part and body |
| Factory.RewriteCommentFields | src/database/factory.service.ts:129-133 | a comment keeps only `name_n`, `local_n@domain` and `body_n` |
| Factory.GeneratedCommentsUnique | src/database/factory.service.ts:129-133 | the comments of one call never repeat a name, email or body |
| Factory.NumberedCommentsApart | src/database/factory.service.ts:129-139 | comments carrying numbers in two ranges, the first wholly below the second, share no name, email or body |
| Factory.GeneratedCommentsApart | src/database/factory.service.ts:129-139 | comments of two calls whose number ranges do not overlap share no name, email or body |
| Factory.SuccessiveCommentCallsDisjoint | src/database/factory.service.ts:119-139 | after a first comment call advances the `Comment` counter, a second call repeats no name, email or body of the first |
| Factory.FactoryService.FetchPages | src/database/factory.service.ts:35-40 | the loop concatenates the pages and throws at the first failed request; it has sent one GET per iteration started |
| Factory.FactoryService.Generate | src/database/factory.service.ts:29-69 | the result is the call's specification at the counter value read first; on success the counter advances by the number returned, on failure it is unchanged; the GETs sent are recorded in `requestLog` |
| Factory.FactoryService.GenerateUsers | src/database/factory.service.ts:29-69 | as `Generate` for entity `User` at `<baseUrl>/users`; `count` defaults to 500 |
| Factory.FactoryService.GeneratePosts | src/database/factory.service.ts:77-107 | as `Generate` for entity `Post` at `<baseUrl>/posts`; `count` defaults to 500 |
| Factory.FactoryService.GenerateComments | src/database/factory.service.ts:115-149 | as `Generate` for entity `Comment` at `<baseUrl>/comments`; `count` defaults to 500 |
| Seeder.Queue.Add | src/database/seeder.service.ts:22 | appends exactly one job with the given name and data |
| Seeder.SeederService.SeedUsers | src/database/seeder.service.ts:20-23 | appends one `user-seed-job` carrying `{count}` to the `user-seed` queue; the other queues are unchanged; `count` defaults to 500 |
| Seeder.SeederService.SeedPosts | src/database/seeder.service.ts:30-33 | appends one `post-seed-job` carrying `{count}` to the `post-seed` queue; the other queues are unchanged |
| Seeder.SeederService.SeedComments | src/database/seeder.service.ts:40-43 | appends one `comment-seed-job` carrying `{count}` to the `comment-seed` queue; the other queues are unchanged |
| Seeder.SeedAll | src/database/seeder.service.ts:10-43 | after seeding each entity once, each queue holds exactly its own job, with the count passed through unvalidated and no parent id |
| UsersService.BuildCreatePayload | src/users/users.service.ts:181-208 | the payload stores exactly the given user, with address and company nested under `create`; it is complete exactly when the user is valid |
| UsersService.CreatePayloadInjective | src/users/users.service.ts:181-208 | different users give different create payloads |
| UsersService.UpdatePayload | src/users/users.service.ts:216-255 | the update patch as written, or the geo TypeError; BuildUpdatePayload is proved equal to it, and UpdatePayloadIsSparse, UpdatePayloadFailsIff and EmptyBodyEmptyPayload characterise it |
| UsersService.BuildAddressUpdate | src/users/users.service.ts:225-235 | the address update holds each truthy street, suite, city and zipcode and nothing else |
| UsersService.BuildCompanyUpdate | src/users/users.service.ts:244-252 | the company update holds each truthy name, catch phrase and bs and nothing else |
| UsersService.BuildUpdatePayload | src/users/users.service.ts:216-255 | the field-by-field builder returns the patch as written, or the TypeError for a body with `address.geo` |
| UsersService.UpdatePayloadIsSparse | src/users/users.service.ts:219-252 | a key is in the patch exactly when its input value is truthy; `address` and `company` are there exactly when the input has them |
| UsersService.UpdatePayloadFailsIff | src/users/users.service.ts:236-240 | the builder throws exactly for bodies with `address.geo` |
| UsersService.EmptyBodyEmptyPayload | src/users/users.service.ts:217-254 | a body without truthy fields and without address or company yields the empty patch |
| UsersService.UpdatePayloadIntended | src/users/users.service.ts:236-240 | the corrected builder copies `geo` from the input; wherever the builder as written succeeds, the two agree |
| UsersService.GeoUpdateCounterexample | src/users/users.service.ts:236-240 | a body setting only coordinates makes the builder as written throw, while the corrected one carries the coordinates |
| UsersService.HandlePrismaError | src/users/users.service.ts:153-173 | always a 500; the unique-constraint message exactly for a known request error P2002, otherwise `Failed to <operation> user` |
| UsersService.FindOne | src/users/users.service.ts:90-102 | succeeds exactly when the row exists and returns it; a database error goes through `handlePrismaError(error, "findOne")`, so P2002 gives the unique-constraint message; a missing row surfaces as 500 `Failed to findOne user`, never as NotFound |
| UsersService.Update | src/users/users.service.ts:111-124 | succeeds exactly when the patch can be built and the database accepts it, and then returns the database's updated row; a database error goes through `handlePrismaError(error, "update")`, so P2002 gives the unique-constraint message; every failure is a 500 |
| UsersService.UpdateWithGeoFails | src/users/users.service.ts:111-124 | any body with coordinates fails as 500 `Failed to update user`, whatever the database would say |
| UsersService.UpdateIntended | src/users/users.service.ts:111-124 | over the corrected builder, only the database's answer decides the outcome |
| DisableMethods.Use | src/middleware/disable-methods/disable-methods.middleware.ts:6-11 | a request is forwarded exactly when its method is not `POST`, `PATCH` or `DELETE`; otherwise it is rejected with 403 `Method <m> is not allowed.` and never forwarded |
| DisableMethods.ReadsAndPutPass | src/middleware/disable-methods/disable-methods.middleware.ts:7-10 | GET, HEAD, PUT and lower-case `post` are forwarded and DELETE is rejected; the test is exact membership |

## Left out

- Concurrency: the counter read (src/database/factory.service.ts:33) and the increment (:59) are separate steps, and parallel workers can interleave between them. The model covers sequential calls only.
- Asynchrony: every `await` is modelled as an immediate answer.
- Logging is not modelled.
- Page requests: the HTTP client of src/requests/requests.service.ts is not part of this model. The fetch oracle replaces it.
- Counter storage: the database behind the counter is a map. A failing counter read or write is not modelled.
- Templates the sample source might serve with missing fields are not modelled; every template has every field. In the program, most missing fields print as "undefined" inside the template literal and do not throw: `username`, the company's `name`, `bs` and `catchPhrase`, a post's `title` and `body`, a comment's `name` and `body` (src/database/factory.service.ts:46, 52-54, 92-93, 130, 132). Only a missing `email`, `phone` or `website` throws, because `.split` is called on undefined (:47-49, :131). A missing `company` object throws too (:52). The `catch` turns each of those throws into `Failed to fetch ...`.
- Strings.NatToString: numbers are unbounded. JavaScript computes `currentCount + index + 1` as a double, which is exact only below 2^53, and a template literal prints numbers from 10^21 on in exponent form (`1e+21`). So the uniqueness lemmas hold in the model with no bound, while in the program they hold only while the counter plus the count stays below 2^53. These lemmas are Strings.SuffixedInjective, Factory.GeneratedUsersUnique, the `Generated...Apart` lemmas and the `Successive...CallsDisjoint` lemmas. The width of the counter column is not part of this model.
- Factory.Synthesize: `count` is an integer. The JavaScript `number` may also be fractional or NaN, and that is not modelled.
- Prisma CRUD bodies (`create`, `findAll`, `remove`, `bulkCreate` and the posts and comments services): these are calls into a persistence library whose code is not shown. Only the error flow of `findOne` and `update` is modelled, with the database answer as a parameter.
- src/users/dto/update-user.dto.ts is not part of this model. The update body is modelled with every field optional, since the builder takes `any`.
- `IsEmail` on the comment DTO (src/comments/dto/create-comment.dto.ts:12) is a library format check and is not modelled. The post and comment DTOs appear only as the generated shapes.
- Not modelled; they only move data between libraries:
  - the seed processors, BullMQ workers and the Redis connection;
  - the seeding service and the cron job;
  - the storage services, the socket gateway, controllers, modules and `main.ts`.
- Seeder.SeederService.SeedUsers: the queue is a list of jobs. Job ids, retries and options are not modelled.

## Findings

| source | as written | input that shows it | evidently intended | confidence | as-written member | corrected member |
|---|---|---|---|---|---|---|
| src/users/users.service.ts:236-240 | the coordinates are read from `updateData.address.geo`, but that object was never set, so the builder throws a TypeError; `update` then reports 500 `Failed to update user` | an update body `{ address: { geo: { lat: "37.7", lng: "-122.4" } } }` | read them from `user.address.geo`, so the coordinates reach `address.update.geo` | not executed | UsersService.GeoUpdateCounterexample | UsersService.UpdatePayloadIntended |
