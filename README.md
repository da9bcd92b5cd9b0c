# Lola: the per-node authorization and mutation pipeline, in Dafny

Lola is a gateway in front of a graph-database client (konekto). Every node that a
save, read or delete operation touches passes through a hook. The hook asks the
access policy for a verdict, may edit the node in place, and returns a proceed flag
or throws. This project models:

- **the access policy** (`Rbac`): the rule engine as an explicit assumption, and the
  five rules of the `users` role. The assumption is that `can` is the OR over the
  matching rules of the role, followed by those of the wildcard role `'*'`. A rule
  matches when its name is `'*'` or equals the resource, and its operation is `'*'`
  or equals the operation. Each `when` result is judged by truthiness. There are no
  deny rules. The `when` closures become a small predicate language (`Condition`).
- **the controller hooks** (`Controller`): `beforeSave`, `beforeRead` and
  `beforeDelete`. It also models the constructor's checks, `createUser` and
  `findUser`, and how the five graph operations turn errors into HTTP errors.
- **the server's inline hooks** (`ServerHooks`): the `/api` save hook that strips
  `is_admin`, the delete routes' throwing read hook, the delete-phase soft-delete
  hook, `beforeParseNode` and the `/signup` field edits.
- **the lifecycle guards**: the `Server` object (policy choice, `listen` checks,
  `isOnline` and the socket) and the `Lola` object (`seed`, `start`, `stop`).

A node is a JavaScript object, `map<string, Value>`. A missing key reads as
`undefined` and `delete` removes the key. `Js` fixes the meaning of truthiness and
of `===`. Each hook that edits a node is written twice:
- a pure function returning `Hooked(out, node)`, the settled result and the node
  as the hook leaves it, with the lemmas about it;
- a method on the mutable `Nodes.Node` object, whose postcondition ties it to that
  function.

Several things are inputs rather than code:
- the existence probe (`inStore`);
- the schema validation oracle (`validation`);
- the password hash (`hash`) and password check (`verified`);
- how a graph operation settles (`gateway`, `saved`);
- which graph-client call rejects during `seed` (`failAt`);
- the socket that the `listen` callback receives (`granted`).

Where the two variants of a file differ, a `Dialect` parameter selects the variant
(`CommonJs` for the `.js` file, `TypeScript` for the `.ts` file). Where they do not
differ, one member models both.

Some properties hold only under the `users` rules, and those lemmas say which. Under
those rules:
- a non-admin never creates a `users` node through a save hook;
- the controller's delete hook checks only the read verdict, so it does not check
  ownership;
- the delete routes soft-delete only nodes whose delete verdict holds;
- a soft-deleted node is hidden from every non-admin reader;
- with the CommonJS save hook bound as intended (`SaveHook`), and handed the saved
  user itself as the node, `createUser`'s create verdict equals the user's own
  `is_admin` claim. As written, that hook throws before any verdict (see Findings), and
  the TypeScript `createUser` saves with no hook at all.

## Model

| member | source | states |
|---|---|---|
| `Rbac.AnyGrants` | src/rbac.js:4-30 | The engine's rule-by-rule evaluation is true iff some rule in the list matches the resource and operation and its condition holds (the assumed OR semantics). |
| `Rbac.LolaVerdict` | src/rbac.js:1-33 | Over the `users` role, `can` holds iff that operation's own rule holds, or `user.is_admin` is truthy. |
| `Rbac.CreateVerdict` | src/rbac.js:5-9 | Create is allowed iff `node._label !== 'users'`, or the user is an admin. |
| `Rbac.UpdateVerdict` | src/rbac.js:10-14 | Update is allowed iff `user._id === node._id`, or `node.user_id === user._id`, or the user is an admin. |
| `Rbac.DeleteVerdict` | src/rbac.js:15-19 | Delete is allowed iff `user._id === node.user_id`, or the user is an admin. |
| `Rbac.ReadVerdict` | src/rbac.js:20-24 | Read is allowed iff `node.deleted` is falsy, or the user is an admin. |
| `Rbac.AdminGrantsEverything` | src/rbac.js:25-29 | A truthy `user.is_admin` allows every operation on every resource. |
| `Rbac.DeleteImpliesUpdate` | src/rbac.js:10-19 | Whenever delete is allowed, update is allowed too. |
| `Rbac.ResourceIsIrrelevant` | src/rbac.js:5-29 | Every rule is named `'*'`, so the verdict is the same for any two resource names. |
| `Rbac.AllowAllGrantsEverything` | src/controller.js:89-94 | The policy `{ roles: { '*': { can: ['*'] } } }` allows every role every operation on every resource. |
| `Rbac.ChoosePolicy` | src/server.ts:27-35 | Options with no keys yield a policy that allows everything. Any other options are used as given. |
| `Errors.Thrown` | src/controller.ts:61-64 | The CommonJS controller throws an HttpError. The TypeScript controller throws a plain `{ status, message }` object with the same status and message. |
| `Errors.HandleGenericError` | src/controller.js:51-54 | Whatever the error, the result is `HttpError('Please try again later', 500)`. |
| `Errors.HandleErrors` | src/controller.js:56-61 | An HttpError is rethrown unchanged. Any other error becomes `HttpError('Please try again later', 500)`. |
| `Errors.HandleErrorsLaws` | src/controller.ts:35-40 | The result is always an HttpError. Its status is the original status for an HttpError and 500 otherwise. Applying the mapping twice changes nothing. |
| `Controller.SaveHook` | src/controller.ts:111-129 | In the model, where the existence probe (src/controller.ts:114) cannot reject, the hook throws iff validation fails, and then before any probe or edit. A node already in store gets the update verdict and a new node the create verdict. The only edit is `user_id := user._id`, on an allowed create where `_id !== user._id`. |
| `Controller.BeforeSave` | src/controller.ts:119-128 | The in-place hook returns what `SaveHook` returns and leaves the node as `SaveHook` does. |
| `Controller.SaveHookAsWritten` | src/controller.js:15-24 | With `this` unbound, the hook always throws and leaves the node unchanged. It throws the validation error when validation fails, and otherwise a TypeError. |
| `Controller.AsWrittenSaveNeverProceeds` | src/controller.js:15-21 | As written, no node ever gets a verdict, whereas the corrected hook gives a verdict for every valid node. |
| `Controller.NoSelfRegistrationThroughSave` | src/controller.js:26-28 | Under the `users` rules, a new `users` node from a non-admin is refused (false) and left unchanged. |
| `Controller.NonOwnerUpdateIsExcluded` | src/controller.js:23-25 | A non-admin who is neither the node nor its owner gets false on an existing node, which is left unchanged. |
| `Controller.CreatorCanUpdate` | src/controller.js:29-32 | After an allowed create, the same caller passes the update verdict on the node as the hook left it. This holds either through the stamp or because the node is the caller's own. |
| `Controller.ReadHook` | src/controller.js:35-43 | The flag is the read verdict. A denied node is returned before redaction and unchanged. An allowed node loses `password` iff it is a `users` node. |
| `Controller.BeforeRead` | src/controller.ts:14-22 | The in-place read hook returns what `ReadHook` returns and leaves the node as `ReadHook` does. The same closure recurs at src/server.js:52-60, 121-129 and 146-154. |
| `Controller.VerdictIgnoresPassword` | src/controller.js:39-41 | Removing `password` never changes any verdict of any policy written in the `Condition` language (such as `LolaPolicy` and `AllowAll`). |
| `Controller.ReadHookIdempotent` | src/controller.js:35-43 | For every policy written in the `Condition` language, applying the read hook twice gives the same node and flag as applying it once. No field other than `password` changes. |
| `Controller.DeletedNodeIsHidden` | src/server.js:121-129 | A node with truthy `deleted` is filtered out (false, unchanged) for every non-admin. |
| `Controller.DeleteHook` | src/controller.js:45-49 | The hook throws `HttpError('Unauthorized', 403)` iff the read hook would return false, and then leaves the node unchanged. Otherwise it returns `undefined`, with the read hook's redaction applied. |
| `Controller.BeforeDelete` | src/controller.ts:24-28 | The in-place delete hook, through the in-place read hook, matches `DeleteHook`. |
| `Controller.DeleteHookIgnoresOwnership` | src/controller.js:46-48 | Under the `users` rules, a node whose `deleted` is falsy passes the delete hook whoever owns it. The value handed back is `undefined`, which is never truthy. |
| `Controller.Settle` | src/controller.js:143-201 | A graph operation's success passes through. A failure always becomes an HttpError: 500 for save, findById and findByQueryObject, and, for the two deletes, the error itself when it is already an HttpError and the 500 'Please try again later' otherwise. |
| `Controller.DeleteDenialSurfacesAs403` | src/controller.js:179-201 | The delete hook's 403 survives `deleteById` and `deleteByQueryObject`, reaching their caller unchanged. The same HttpError, caught by `save` or a find, would become 500. |
| `Controller.ControllerPolicy` | src/controller.js:76-97 | The constructor throws the konekto message without konekto, then the RBAC message without options. Empty options mean allow-all. Other options are used as given. |
| `Controller.StoredUser` | src/controller.js:107-108 | The saved user is a `users` node carrying the hashed password, with all other fields unchanged (including `is_admin`). |
| `Controller.CreateUser` | src/controller.js:100-119 | A validation failure is a 400 and leaves the user unchanged, with no hashing. A hash failure propagates. Otherwise the user becomes `StoredUser`, and a failed save is a 500 with the create-failed message. |
| `Controller.SignupVerdictIsAdminClaim` | src/controller.js:109-114 | With the hook bound as intended (`SaveHook`) and handed the saved user itself as the node, under the `users` rules the create verdict is exactly the user's own `is_admin` truthiness. The hook as written never reaches a verdict, and the TypeScript `createUser` (src/controller.ts:69) saves with no hook. |
| `Controller.FindUser` | src/controller.js:121-141 | No user gives 404. A rejected password check propagates unchanged, and a failed one gives 400; both leave the user unchanged. Otherwise the user is returned without `password`. |
| `ServerHooks.ApiSaveHook` | src/server.js:78-96 | In the model, where the existence probe (src/server.js:79) cannot reject, the hook never throws. A `users` node always ends without `is_admin`, on both paths, and the flag is judged on the stripped node. Other nodes keep `is_admin`. An existing node gets the update verdict and no stamp. An allowed new node gets `user_id := user._id` iff `_id !== user._id`. |
| `ServerHooks.ApiBeforeSave` | src/server.js:83-95 | The in-place `/api` hook matches `ApiSaveHook`. |
| `ServerHooks.ApiSaveIsStrippedSave` | src/server.js:86-95 | The `/api` hook equals the controller's save hook applied to the stripped node, with validation passing. |
| `ServerHooks.AdminFlagNeverWritten` | src/server.js:83-85 | Whoever the caller is, a `users` node leaves the `/api` hook with a falsy `is_admin`. |
| `ServerHooks.DeleteRouteReadHook` | src/server.js:174-182 | The hook throws `Error('unauthorized')` iff read is denied, leaving the node unchanged. Otherwise it returns true and redacts `password` from `users` nodes. |
| `ServerHooks.DeleteRouteBeforeRead` | src/server.ts:128-136 | The in-place form matches `DeleteRouteReadHook`. The same closure recurs at src/server.ts:174-182. |
| `ServerHooks.DeleteRouteReadAgreesWithRead` | src/server.js:220-228 | It throws exactly where beforeRead would return false, and otherwise equals beforeRead. |
| `ServerHooks.DeletePhaseSaveHook` | src/server.js:187-193 | The flag is the delete verdict. When it holds, `deleted` becomes true and nothing else changes. Otherwise the node is unchanged. |
| `ServerHooks.DeletePhaseBeforeSave` | src/server.ts:141-147 | The in-place form matches `DeletePhaseSaveHook`. The same hook recurs at src/server.js:234-240 and src/server.ts:188-194. |
| `ServerHooks.SoftDeletedIsHidden` | src/server.js:234-240 | Once the delete phase marks a node, the read verdict on it fails for every non-admin. |
| `ServerHooks.DeleteOwnership` | src/server.ts:188-194 | A non-admin non-owner marks nothing and gets false. An admin marks any node. |
| `ServerHooks.ParseNodeAsWritten` | src/server.js:114-120 | A falsy `_where` becomes `{filter: '{this}.deleted IS NULL'}`. A truthy primitive `_where` throws. An object `_where` keeps every key it had, such as `params`, and gains or overwrites only `filter`. No key outside `_where` changes. |
| `ServerHooks.BeforeParseNode` | src/server.js:115-119 | The in-place hook matches `ParseNodeAsWritten`, including the thrown TypeError. |
| `ServerHooks.AsWrittenDropsFilter` | src/server.js:116 | Every object `_where` gets the same filter `({this}.deleted IS NULL) AND ([object Object])`, whatever its own filter was. |
| `ServerHooks.AsWrittenCounterexample` | src/server.js:116 | For `_where = {filter: '{this}.owner = :o'}`, the result is not the wrapped owner filter. |
| `ServerHooks.ParseNodeIntended` | src/server.js:114-119 | The corrected hook has the same falsy and primitive cases, and no key outside `_where` changes. An object `_where` keeps all its keys and gains only `filter`. Without a string filter, it gets the not-deleted filter alone. |
| `ServerHooks.IntendedWrapsFilter` | src/server.js:115-117 | An existing filter F becomes `({this}.deleted IS NULL) AND (F)`, with F recoverable from it. Every other `_where` key, such as `params`, is kept. |
| `ServerHooks.SignupUser` | src/server.js:16-18 | The signup node is a `users` node with the hashed password and no `is_admin` key. No other field changes. |
| `ServerHooks.Signup` | src/server.js:14-19 | The in-place edits produce `SignupUser`. A hash failure propagates and leaves the body untouched. |
| `ServerHooks.SignupStripsAdminControllerDoesNot` | src/server.js:18 | `/signup` removes `is_admin`, while the controller's createUser keeps it as sent. |
| `Server.ServerPolicy` | src/server.ts:24-35 | Missing options throw 'You must provide at least an empty object for RBAC'. Empty options mean allow-all. Other options are used as given. |
| `Server.ListenArgumentError` | src/server.ts:208-213 | The hostname message appears iff the hostname is not a non-empty string. The port message appears iff the hostname is fine and the port is not a number `>= 0`: this covers NaN, non-numbers and negatives, while 0 is accepted. |
| `Server.ListenExamples` | test/server.test.ts:53-79 | The tests' argument cases: valid host and port, port 0, missing, numeric or empty host, and missing, negative, NaN or string port. |
| `Server.ListenOutcome` | src/server.ts:214-224 | `listen` resolves iff the arguments pass and the callback gets a socket. Otherwise it rejects with the argument error or 'failed to start server'. |
| `Server.Server.constructor` | src/server.ts:19-20 | A new server is not online and has no socket. |
| `Server.Server.Listen` | src/server.ts:207-225 | The result is `ListenOutcome`. On success the socket is stored and `isOnline` becomes true. On any rejection both are unchanged. |
| `Server.Server.Disconnect` | src/server.ts:227-229 | The stored socket is passed to the socket-close call. `isOnline` is not reset. |
| `Server.NewServer` | src/server.ts:22-36 | The RBAC check's error is thrown. Otherwise the result is a fresh server, not online, holding the chosen policy. |
| `Server.IdRouteBody` | src/server.ts:110-113 | A truthy lookup result is sent as it is. A falsy one becomes `{message: 'root not found'}`. |
| `Lola.SchemaArgument` | src/index.js:21-25 | CommonJS: `{_label: 'users'}` without a schema, and `[schema, {_label: 'users'}]` with one. TypeScript (src/index.ts:29): the schema is unchanged. |
| `Lola.SeedCalls` | src/index.js:26-30 | There are five calls in order. The fourth passes the schema argument and the fifth runs the given seed function, or the no-op default, on the graph client. |
| `Lola.Lola.constructor` | src/index.ts:12 | `_seeded` starts false and no graph-client call has been made. |
| `Lola.Lola.Seed` | src/index.js:17-32 | A falsy or non-string graph name throws 'graphName must be a string' before any graph-client call and without setting `_seeded`. If a call rejects, the calls up to it have been made and `_seeded` is unchanged. Otherwise all five calls are made and only then is `_seeded` true, with or without a seed function. |
| `Lola.Lola.Start` | src/index.js:34-39 | Before seeding, it throws the seed-first message and the server is untouched. After seeding, it is the server's `listen` on the same hostname and port. |
| `Lola.Lola.Stop` | src/index.js:41-43 | It calls the server's `disconnect`. |
| `Lola.LifecycleScenario` | test/lola.test.ts:28-66 | The tests' lifecycle: `start` before `seed` refuses with the seed-first message, a numeric or empty graph name is refused, a good `seed` succeeds, and `start` then succeeds. |

## Left out

- HTTP transport is not modelled: routing, `onAborted`, `respond`, `readBody`, response statuses and bodies. The exception is the body of `GET /api/id/:id`.
- Tokens and authentication (`TokenHelper`) are not modelled. The caller's user object is a parameter of every hook. The constructor checks on `jwtConfig` and on the konekto instance that the server's tests expect live in `TokenHelper`, which is not part of this model.
- Password hashing (argon2, bcrypt) is the function parameter `hash`, and password verification is its settlement `verified`, a boolean or a rejection. The argument order of the verify call at src/controller.js:135 is therefore not modelled.
- Schema validation (ajv) is the oracle `validation`. src/controller.js:16 calls `validate` with three arguments. src/utils.js:11 defines it with two and does not export it (src/utils.js:123-128). In the same way, src/controller.ts:1 imports `validate`, which src/utils.ts:13 defines with two parameters and does not export, and calls it with three at src/controller.ts:58 and 112. So what those calls really do is not decided by the model, and the same oracle stands for both. The constructors' lists of schemas and the Ajv instance are not modelled either.
- Graph-client operations and the traversal that calls the hooks are inputs:
  - the existence probe is `inStore`, a boolean, so a rejecting probe (src/controller.ts:114, src/server.js:79) is not modelled;
  - `findUser`'s lookup by username is `found` (src/controller.js:122, src/controller.ts:80), so a rejecting lookup is not modelled;
  - an operation's settlement is `gateway` or `saved`;
  - a rejected `seed` call is `failAt`.
  The model does not say how the client treats a false or `undefined` hook flag. It does not follow a delete route from its find to its save.
- The rule engine's internals are not modelled. Its OR-over-matching-rules semantics is an assumption, and so is the meaning of the wildcard role `'*'`.
- `Rbac.FromOptions` and `Rbac.Condition`: a user-supplied `rbacOptions` is limited to rules whose `when` is one of the six conditions of the `Condition` language. A policy whose `when` is an arbitrary closure, or reads other fields such as `password`, is not covered. For such a policy, `Controller.VerdictIgnoresPassword` and `Controller.ReadHookIdempotent` need not hold. For example, under a read rule `when: ctx => !!ctx.node.password`, a first `beforeRead` passes and removes the password, and a second one fails.
- Logging, `src/config.js`, and the interleaving of asynchronous hook calls are not modelled.
- JavaScript values: there are no arrays, so an array-valued `_where` from the query parser is not covered, and `createSchema`'s list argument has its own type. Numbers are reals, without infinities or negative zero. `===` between objects is always false, because objects that reach a hook from different sources are never the same reference.
- Aliasing is not modelled. The caller's user object is passed to the hooks as a value, and nested objects such as `_where` are values. A hook that edited a node aliased to the caller would therefore not be seen changing the caller.
- `rbacOptions` that is truthy but not an object (for example `true`) is not modelled. Options are either missing or an object with keys.
- The policy the CommonJS server's hooks use is not modelled as wired. They call `rbac.can` on the `rbac` taken from the constructor argument (src/server.js:7). src/index.js:11 passes `rbacOptions` rather than `rbac`, so there `rbac` is `undefined`. test/server.test.js:10 passes `rbac: {}`, which has no `can`. In both wirings, every `rbac.can(...)` in those hooks would throw a TypeError (src/server.js:53, 87, 89, 122, 147, 175, 188, 221 and 235). The model takes the policy as the parameter `p`, an engine built from the options. So statements such as "the hook never throws" for the `ServerHooks` members assume a server given a real policy engine.
- Controller wiring at src/server.ts:39 is not modelled. There, four arguments go to the three-parameter constructor of src/controller.ts:45, so the TypeScript controller's `rbac` is the logger and its hooks would throw. The TypeScript controller's constructor has no checks and is modelled as the policy parameter.
- Lola is modelled over the server of src/server.ts. src/index.js loads src/server.js, whose `listen` has no argument checks and keeps no state, and which has no `disconnect`. With that server, `stop` would throw a TypeError.
- `Lola.Lola.Seed`: the seed function's own effects on the graph are not modelled. Only the fact that it is called, with the graph client, is recorded.
- Construction of the graph client and the server inside Lola's constructor is not modelled. The constructor takes the server.

## Findings

| source | as written | input that shows it | evidently intended | confidence | as-written member | corrected member |
|---|---|---|---|---|---|---|
| src/server.js:116 | The filter is set to `({this}.deleted IS NULL) AND (${node._where})`, which interpolates the whole `_where` object. That makes `[object Object]` and discards the caller's filter. | `_where = {filter: '{this}.owner = :o'}` gives filter `({this}.deleted IS NULL) AND ([object Object])`. | Interpolate `node._where.filter`, giving `({this}.deleted IS NULL) AND ({this}.owner = :o)`. | high; not executed | `ServerHooks.AsWrittenCounterexample` | `ServerHooks.IntendedWrapsFilter` |
| src/controller.js:15-24 | `beforeSave` reads `this.ajv`, `this.konekto` and `this.rbac`, but it is called as a plain function (lines 112 and 147). So `this` is not the controller, and `this.konekto.findOneByQueryObject` throws a TypeError. | Any node that passes validation, in `save` or `createUser`. | Bind the hook to the controller, as the inline arrow at src/controller.ts:111-129 does. | high; not executed | `Controller.AsWrittenSaveNeverProceeds` | `Controller.SaveHook` |
