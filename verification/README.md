# Payments workflow, state store, CRUD models and validators: a Dafny model

This project models the small sequential pieces of logic of the
`aws-apigateway-team-routes` microservices (payments, users, orders) and proves
properties of them:

- **The two-step workflow of the payments state machine.** The steps are
  `state1` and `state2`. Each takes the request body `{input, output, ...}`,
  spreads its own `{key, time}` result into `output` and sends the whole body
  back. The Lambda handler normalises the incoming event first: it serialises
  the body, puts a JSON `Content-Type` default under the caller's headers and
  forces `POST`. It then dispatches through a registry of exactly two routes,
  `/payments/<v>/state1|state2`, and returns the parsed response body itself,
  without the status code. Modules `StatemachineController` and `Statemachine`.
- **State persistence.** The FlyDrive strategy stores each state as
  `<basePath>/<key>.json` in a blob store. The model covers save, load, has and
  delete, the shallow-merging `updateState`, and the factory's choice of driver
  and base path from the environment. Module `StateManager`.
- **In-memory CRUD models.** Users, orders and payments each keep a record
  sequence with all/create/read/update/delete. The shared logic lives in module
  `Collection`; the per-service modules are `UserModel`, `OrderModel` and
  `PaymentModel`. The fastify user routes (`UserRoutes`) keep a `Map` and a
  `nextId` counter.
- **Validators.** The `validateEmail` pre-handler is module `ValidateEmail`.
  The payment body schema is module `PaymentSchema`. Its keywords are given the
  meaning of JSON Schema Validation draft-07 (sections 6.1.1, 6.1.2, 6.2.4,
  6.3.1, 6.3.2, 6.5.3, 6.5.4 and 6.5.6). The schema is proved equivalent to a
  direct `ValidPayment` predicate.
- **ZIP upload planning of `AxiosFileDownloader.download`.** This covers which
  uploads happen, under which keys and parameters, and what the call returns.
  Module `UploadPlan`.

Shared modules:

- `Wrappers`: `Option` and `Result`.
- `Js`: JSON values, and the JavaScript rules the code relies on. These are
  truthiness, `typeof`, property reads, object spread, thrown errors, and
  `JSON.stringify`/`JSON.parse` as an abstract codec with a round-trip
  predicate.
- `Decimal`: decimal spelling of naturals, and ECMAScript `parseInt(s, 10)`.
- `Http`: a reply, meaning a status and a JSON body.

Environment inputs are parameters:

- `process.env` is a `map<string, string>`.
- `Date.now()`, `new Date()` and `toISOString()` are `now`.
- `crypto.randomUUID()` is `id`.
- `path.join` is `join`.
- The outcome of each S3 upload is `done`.
- The blob store is a map from path to file contents, plus the set of paths
  whose existence check throws.

Three behaviours of the handler are easy to miss when reading its comments,
and the model follows the code in each:

- A body that arrives as serialised text is serialised again by the handler.
  The step therefore sees a string and throws. Normalisation does not accept
  pre-serialised bodies and is not idempotent on them (`Statemachine.TextBodyFails`).
- A routing or step fault does not propagate as a thrown error.
  The router answers with an error status and an error object, and the handler
  returns that parsed object. The model keeps these outcomes as `Fault`
  variants instead of copying the router's error fields.
- The handler never returns the status code: a success and a fault both come
  back as a parsed body alone.

Two documentation comments disagree with the code, and the model follows the
code in both cases:

- The `amount` description says "at least 0.01", but the rule is `minimum: 10`
  (`PaymentSchema.AmountBoundary`).
- `update` is documented to return `undefined` for an unknown id, but it throws
  (`UserModel.Update`).

## Model

| member | source | states |
|---|---|---|
| StatemachineController.RunStep | payments/app/controllers/PaymentsStatemachineController.mjs:15-26 | A step succeeds exactly on object and array bodies; `null` and primitives throw. An array comes back unchanged. For an object, only `output` changes: it keeps every earlier key and holds the step's value under the step's key. |
| StatemachineController.State1 | payments/app/controllers/PaymentsStatemachineController.mjs:12-27 | `state1` sets `output.state1Value` to `{key:'state1', time: now}`, keeps all other output keys and body fields, and replaces an earlier `state1Value`. |
| StatemachineController.State2 | payments/app/controllers/PaymentsStatemachineController.mjs:29-41 | `state2` has the same contract with key `state2Value` and tag `'state2'`. |
| StatemachineController.MissingOutputHoldsOnlyStepKey | payments/app/controllers/PaymentsStatemachineController.mjs:24 | A missing (or non-spreading) `output` counts as empty, so the result's `output` holds only the step's key. |
| StatemachineController.StepsAccumulate | payments/app/controllers/PaymentsStatemachineController.mjs:17-39 | `state1` then `state2`: all body fields kept, `output` has every prior key plus both step keys, and the second step does not touch the first step's key. |
| StatemachineController.FreshRun | payments/app/controllers/PaymentsStatemachineController.mjs:24-39 | From `{input, output: {}}`, two steps give `{input, output: {state1Value, state2Value}}` with the input untouched. |
| Statemachine.ApiVersion | payments/app/statemachine.mjs:11 | The version is `API_VERSION` when set and non-empty, otherwise `'v1'`. |
| Statemachine.Registry | payments/app/statemachine.mjs:16-24 | Exactly two routes, `/payments/<v>/state1` and `/payments/<v>/state2`, each mapped to its own step. |
| Statemachine.Normalise | payments/app/statemachine.mjs:31-41 | Method is always `POST`. Headers are the caller's plus `Content-Type`: caller values win, and the JSON default applies only when the exact key is absent. A body is serialised so that parsing recovers it. |
| Statemachine.Handler | payments/app/statemachine.mjs:30-51 | Every invocation sets `callbackWaitsForEmptyEventLoop` to false. |
| Statemachine.HandlerRunsStep | payments/app/statemachine.mjs:46-50 | With a round-tripping codec, a step route returns exactly the step's result object, with no status code, whatever method the event named. A step error becomes a step fault, and a missing body is a fault. |
| Statemachine.UnknownPathFaults | payments/app/statemachine.mjs:19-24 | Any other path is a route-not-found fault for `POST`, never a result. |
| Statemachine.TextBodyFails | payments/app/statemachine.mjs:32 | A body given as text is serialised again and the step fails on it. |
| Statemachine.TwoStepRun | payments/app/statemachine.mjs:30-50 | Feeding `state1`'s result into `state2` through the handler yields an envelope with the input and both `{key, time}` step values. |
| Js.Get | users/api/models/UserModel.mjs:50 | `params.email` throws exactly when `params` is `undefined` or `null`, and otherwise reads the property (or `undefined`). |
| Js.Message | payments/app/services/AxiosFileDownloader.mjs:96 | `err.message`: the message a thrown error carries, with `<name> is not defined` for a reference error. |
| Js.Merge | payments/app/services/StateManager.mjs:181 | `{...a, ...b}` has the keys of both; on shared keys `b` wins, and other keys keep `a`'s values. |
| StateManager.NewStrategy | payments/app/services/StateManager.mjs:54-58 | The base path defaults to `'states'` when none is given. |
| StateManager.GetPathInjective | payments/app/services/StateManager.mjs:65-67 | The path is base path, `/`, key, `.json`, and distinct keys give distinct paths. |
| StateManager.HasState | payments/app/services/StateManager.mjs:103-111 | True exactly when the file exists and the check does not throw; a throwing check reads as false. |
| StateManager.SaveState | payments/app/services/StateManager.mjs:75-80 | The key's file holds the serialised state, and every other file is unchanged. |
| StateManager.LoadState | payments/app/services/StateManager.mjs:87-96 | No state gives `null`. An existing file that parses gives exactly the parsed value, and one that does not parse throws `JSON.parse`'s `SyntaxError`. |
| StateManager.DeleteState | payments/app/services/StateManager.mjs:118-124 | Afterwards `hasState` is false, and on an absent key nothing changes. Otherwise exactly the key's file is removed: other files are unchanged and none appears. |
| StateManager.SaveThenLoad | payments/app/services/StateManager.mjs:75-96 | Saving then loading a key returns the saved state (when its existence check does not throw). |
| StateManager.SaveKeepsOtherKeys | payments/app/services/StateManager.mjs:65-96 | Saving key A changes neither `hasState(B)` nor `loadState(B)` for B ≠ A. |
| StateManager.DeleteKeepsOtherKeys | payments/app/services/StateManager.mjs:118-124 | Deleting key A changes neither `hasState(B)` nor `loadState(B)` for B ≠ A. |
| StateManager.UpdateState | payments/app/services/StateManager.mjs:179-184 | Throws exactly when loading throws. Otherwise the current state, with a falsy one counting as `{}`, is spread under the partial state, saved and returned. |
| StateManager.UpdateMergesShallowly | payments/app/services/StateManager.mjs:180-183 | For object states, the stored result has the keys of both, partial keys win, all other keys are kept, and it loads back. |
| StateManager.UpdateOfAbsentKey | payments/app/services/StateManager.mjs:180-181 | With no stored state, the update stores the spread partial state alone. |
| StateManager.Create | payments/app/services/StateManager.mjs:193-235 | The base path is `STATES_PATH` (default `'states'`) only for `STORAGE_TYPE` `'s3'`, and `''` otherwise. The S3 driver is used only for `'s3'`. The directory is created only for `'local'`, which is the default. |
| StateManager.FactoryPaths | payments/app/services/StateManager.mjs:194-233 | With no storage type, a key lands at `/<key>.json`; with `s3` and no `STATES_PATH`, it lands at `states/<key>.json`. |
| Collection.IndexOf | users/api/models/UserModel.mjs:61 | The first index holding the id, or none exactly when no record has it. |
| Collection.Find | users/api/models/UserModel.mjs:60-62 | The first record with the id, or `undefined` exactly when none has it. |
| Collection.Without | users/api/models/UserModel.mjs:84 | Keeps exactly the records whose id differs. |
| Collection.WithoutAppend | users/api/models/UserModel.mjs:84 | Filtering distributes over concatenation, so the kept records stay in order. |
| Collection.WithoutAbsent | users/api/models/UserModel.mjs:82-86 | Filtering out an id no record has leaves the sequence unchanged. |
| Collection.Create | users/api/models/UserModel.mjs:49-53 | Exactly one record is appended at the end and returned; earlier records are unchanged. |
| Collection.Update | users/api/models/UserModel.mjs:71-75 | Throws exactly when no record matches. Otherwise only the field of the first match changes, its id and creation time are kept, and all other records are unchanged. |
| Collection.Delete | users/api/models/UserModel.mjs:82-86 | Removes every match, returns the first match or `undefined`, and an absent id changes nothing. |
| Collection.CreateFresh | users/api/models/UserModel.mjs:21-53 | With a fresh id, ids stay distinct and `find` returns the new record. |
| Collection.CreateKeepsOtherReads | users/api/models/UserModel.mjs:49-62 | Creating does not change what `read` returns for any other id. |
| Collection.UpdateKeepsIds | users/api/models/UserModel.mjs:71-75 | Update keeps every id and creation time, so distinct ids stay distinct. |
| Collection.WithoutKeepsDistinct | users/api/models/UserModel.mjs:84 | Filtering keeps ids distinct. |
| Collection.CreateKeepsOrder | users/api/models/UserModel.mjs:49-53 | Appending a record stamped after all the others keeps the records in creation order. |
| Collection.UpdateKeepsOrder | users/api/models/UserModel.mjs:71-75 | Updating keeps creation order, since no creation time changes. |
| Collection.WithoutKeepsOrder | users/api/models/UserModel.mjs:84 | Filtering keeps the remaining records in creation order. |
| Collection.DeleteRemovesAll | users/api/models/UserModel.mjs:82-86 | After a delete no record has that id, and distinct ids stay distinct. |
| UserModel.AllInCreationOrder | users/api/models/UserModel.mjs:39-86 | Whatever history of creates, updates and deletes is replayed, `all` lists the users in the order they were created. Creation times strictly increase along the list, given a clock that moves forward. |
| UserModel.Create | users/api/models/UserModel.mjs:49-53 | Succeeds exactly for non-null parameters, appending `{id, params.email, now}` at the end. A fresh id becomes readable and keeps ids distinct. |
| UserModel.Read | users/api/models/UserModel.mjs:60-62 | The first user with the id, or `undefined` exactly when none has it. |
| UserModel.Update | users/api/models/UserModel.mjs:69-75 | Nullish parameters throw their own read error first, even for an unknown id. An unknown id then throws on the assignment, and does not return `undefined` as documented. Otherwise only the email of the first match changes. |
| UserModel.Delete | users/api/models/UserModel.mjs:82-86 | Removes all matches, keeping the rest in order, and returns the first match or `undefined`; afterwards the id is unreadable. |
| UserModel.IdsStayDistinct | users/api/models/UserModel.mjs:21-86 | With fresh ids on create, ids stay pairwise distinct across any history of calls. |
| OrderModel.AllInCreationOrder | orders/api/models/OrderModel.mjs:18-42 | Whatever history of calls is replayed, `all` lists the orders in the order they were created, given a clock that moves forward. |
| OrderModel.Create | orders/api/models/OrderModel.mjs:22-26 | Succeeds exactly for non-null parameters, appending `{id, params.total, now}` at the end. |
| OrderModel.Read | orders/api/models/OrderModel.mjs:28-30 | The first order with the id, or `undefined`. |
| OrderModel.Update | orders/api/models/OrderModel.mjs:32-36 | `params.total` is read first, so nullish parameters throw that error. An unknown id then throws on the assignment. Otherwise only the `total` of the first match changes. |
| OrderModel.Delete | orders/api/models/OrderModel.mjs:38-42 | Removes all matches in order, returns the first or `undefined`; an absent id leaves the collection unchanged. |
| PaymentModel.AllInCreationOrder | payments/app/models/PaymentsModel.mjs:39-86 | No history of calls reorders the `coupons` records that `all` lists, so they stay in creation order. |
| PaymentModel.Create | payments/app/models/PaymentsModel.mjs:49-53 | Always throws `ReferenceError` for `Coupon`, and nothing is appended. |
| PaymentModel.Read | payments/app/models/PaymentsModel.mjs:60-62 | The first record with the id, or `undefined`. |
| PaymentModel.Update | payments/app/models/PaymentsModel.mjs:71-75 | `params.email` is read first, so nullish parameters throw that error. An unknown id then throws on the assignment. Otherwise only the email of the first match changes. |
| PaymentModel.Delete | payments/app/models/PaymentsModel.mjs:82-86 | Removes all matches in order, and returns the first match or `undefined`. |
| PaymentModel.StaysEmpty | payments/app/models/PaymentsModel.mjs:49-86 | Starting empty, no history of calls ever stores a record. |
| ValidateEmail.Validate | payments/app/middleware/validateEmail.mjs:10-26 | Continues exactly when the email is a string containing `'@'`. Empty, non-string and missing emails are rejected with a 400 `{error:'Invalid or missing email address.'}` that stops the request. |
| Decimal.ParseIntFromNat | payments/app/routes/users.mjs:17 | `parseInt(s, 10)` reads back the decimal spelling of a number, ignoring a non-digit tail. |
| UserRoutes.InitialValid | payments/app/routes/users.mjs:5-6 | The empty map with `nextId = 1` satisfies the store invariant. |
| UserRoutes.MapSet | payments/app/routes/users.mjs:55 | `Map.set` adds a new key at the end of the iteration order and keeps an old key's place. |
| UserRoutes.GetById | payments/app/routes/users.mjs:16-26 | 404 `{error:'User not found'}` exactly when `parseInt(id)` is NaN or not a stored key; otherwise 200 with the stored user. |
| UserRoutes.GetAll | payments/app/routes/users.mjs:29-33 | Returns every stored user, by insertion (ascending id) order. |
| UserRoutes.Post | payments/app/routes/users.mjs:37-60 | The email gate comes first. A falsy name gives a 400 with nothing changed. Otherwise 201 with `{id: nextId, name, email, createdAt}`, which is stored, and `nextId` grows by one; the invariant is kept. |
| UserRoutes.PostThenGet | payments/app/routes/users.mjs:16-60 | A created user is returned by GET on its id and appears last in GET all. |
| UserRoutes.CounterCountsCreates | payments/app/routes/users.mjs:5-59 | From the start, over any run of POSTs each with its own body and arrival time, `nextId` is 1 plus the number of successful POSTs. Stored ids are unique and equal their keys. |
| PaymentSchema.SchemaMeansValidPayment | payments/app/schemas/PaymentSchema.mjs:2-26 | Under draft-07 semantics the schema accepts exactly the objects with keys `amount`, `currency` and `description`, where amount ≥ 10, currency is in {USD, EUR, GBP}, and the description has 1..255 characters. |
| PaymentSchema.AmountBoundary | payments/app/schemas/PaymentSchema.mjs:7-11 | The minimum is an inclusive 10, not 0.01, and an extra property invalidates the body. |
| UploadPlan.UploadParams | payments/app/services/AxiosFileDownloader.mjs:77-85 | Upload parameters are `Bucket`, `Key` and `Body` plus the caller's options, and the options override them. |
| UploadPlan.ZipUrlIsCaseInsensitiveSuffix | payments/app/services/AxiosFileDownloader.mjs:54 | The ZIP branch is taken exactly when the URL ends in `.zip` in any letter case. |
| UploadPlan.Files | payments/app/services/AxiosFileDownloader.mjs:63-67 | Keeps exactly the entries of type `'File'`. |
| UploadPlan.FilesAppend | payments/app/services/AxiosFileDownloader.mjs:63-107 | Selecting files preserves entry order. |
| UploadPlan.ZipPlan | payments/app/services/AxiosFileDownloader.mjs:63-98 | One upload per file entry, in entry order, keyed `join(s3Key, entry.path)`. |
| UploadPlan.Collect | payments/app/services/AxiosFileDownloader.mjs:89-114 | All results in plan order when every upload succeeds. Otherwise it fails with a new `Error` reading `Failed to upload <path>: <err.message>` for a failed entry. |
| UploadPlan.Download | payments/app/services/AxiosFileDownloader.mjs:34-175 | A non-2xx status fails before any upload. A ZIP URL yields one result per file entry, or the wrapped error of a failed entry. Any other URL yields the single upload's result, or rethrows its error unchanged. |
| UploadPlan.ZipResults | payments/app/services/AxiosFileDownloader.mjs:63-114 | When all uploads succeed, the ZIP result list has one result per file entry, each from the upload under its joined key. |
| UploadPlan.DirectoriesOnly | payments/app/services/AxiosFileDownloader.mjs:100-107 | Non-file entries start no upload. |
| UploadPlan.OnlyPlannedUploadsMatter | payments/app/services/AxiosFileDownloader.mjs:47-158 | The outcome depends only on the planned uploads: none for a bad status, and exactly one under `s3Key` for a plain URL. |
| UploadPlan.CollectAgrees | payments/app/services/AxiosFileDownloader.mjs:112 | `Promise.all`'s outcome depends only on the outcomes of the planned uploads. |

## Left out

- Logging everywhere (`req.log`, `request.log`, `console`) and upload-progress
  percentages: they have no effect on results.
- The router frameworks (fastify, `@fastify/aws-lambda`, lambda-api) are not
  part of this model. Left out:
  - route matching beyond an exact path-and-method match (trailing slashes,
    case, query strings);
  - content-type negotiation, so a caller `Content-Type` that overrides the
    JSON default is not modelled;
  - the exact fields of the error objects the router returns for faults;
  - fastify's JSON body parser rejecting a body with a 400 before any route
    runs. It does so for an object key `__proto__`, or a `constructor` key
    holding `prototype`, at any depth (prototype-poisoning protection), and
    for a body over its 1 MiB `bodyLimit`. `Statemachine.HandlerRunsStep`
    runs the step on every body that parses, including these.
- Statemachine.Handler: the status code the router sets is not modelled, since
  the handler drops it and returns only the parsed body.
- Js.Value: JSON numbers are `real`, not IEEE doubles, and object key order is
  not kept. `JSON.stringify`/`JSON.parse` are an abstract codec, and the
  round-trip lemmas assume it round-trips.
- Js.Spread: a string is spread by Unicode code point. JavaScript spreads it by
  UTF-16 code unit, so characters outside the Basic Multilingual Plane differ.
- Decimal.ParseInt: folds `-0` into `0` and does not round beyond 2^53. Ids
  never reach either case.
- StateManager.HasState: storage `put`, `get` and `delete` failures
  (I/O errors) are not modelled. Only the existence check may throw.
- StateManager.Create: `new URL(root, import.meta.url)` and `path.resolve` are
  kept symbolic as the `FsRoot` datatype. The S3 credentials and `visibility`
  options, and a failing `mkdir` (only logged), are not modelled.
- Object aliasing: in the source, `read` and `update` return the stored object
  itself, so later mutations show through. The model has value semantics.
- UploadPlan.Collect: `Promise.all` rejects with the first upload to settle
  with an error. The model names the first failed upload in entry order, and
  its contract only promises some failed entry.
- UploadPlan.Collect: the failure outcome assumes every upload settles after
  the last archive entry is read. Each upload starts inside the entry loop,
  but `Promise.all` is attached only after the loop. An upload that fails
  while later entries are still being read leaves its rejection unhandled
  for that time, and under Node's default unhandled-rejection mode the
  process ends instead of `download` rejecting. Time and unhandled
  rejections are not modelled.
- UploadPlan.Download: leaves out:
  - the streams, the unzipper and its errors, and the S3 client;
  - axios's own default rejection of non-2xx statuses, which also starts no upload;
  - the diagnostic branches of the `catch` block, which only log before
    rethrowing.
- UploadPlan.Lower: lower-cases ASCII letters only. Only the last four
  characters matter, and no other character lower-cases to `.`, `z`, `i` or `p`.
- Wall-clock time, random ids, the environment and `path.join` are parameters
  rather than modelled.
