# Sqvirrel client core, modelled in Dafny

Sqvirrel is a small REST client facade. A `Sqvirrel` instance holds a host, a
port and default headers, plus six adapter slots (`_options`, `_head`, `_get`,
`_post`, `_put`, `_delete`). Its verb operations refuse when their slot is
empty. Otherwise they merge headers and hand a request bundle to the adapter
function in the slot. `batchRequest` settles many pending calls at once and
splits the outcome records into responses and errors.

This project models:

- `promises.dfy` (module `Promises`): a promise is represented by the outcome
  it settles to. `Promise.resolve` treats a plain value as fulfilled. `All`
  models `Promise.all`.
- `helpers.dfy` (module `Helpers`): `settle` and `bifurcate` from
  `lib/utils/helpers.js`. `Bifurcate` is a loop appending to two sequences.
  It is specified by `Select`, a filter over (element, index). `Positions` gives
  the indices each bucket keeps.
- `js_model.dfy` (module `JsModel`): the JavaScript values the client touches.
  This covers truthiness, `typeof ... === "object"`, property lookup,
  destructuring defaults and rest properties, `x || null`, and the
  `Object.assign` header merge. The object passed to an adapter is a map from
  property names to values. A JavaScript function is known only by its
  identity. What an adapter function does is a parameter `invoke`.
- `sqvirrel.dfy` (module `Client`): the class of `lib/sqvirrel.js`. Its slots
  are a map keyed by the `ADAPTER_METHODS` enumeration, which mirrors the
  source's `this[method]` writes. `Create` is the throwing constructor.
  `ApplyAdapter` and `RemoveAdapter` are loops over `ADAPTER_METHODS`. The six
  verbs share one function, `Request`. `BatchRequest` is `settle` followed by
  `bifurcate` with the `!entry.error` filter. It takes an array and returns
  `{responses, errors}`. There is no queue, no predicate argument and no clear
  flag.
- `draft_sqvirrel.dfy` (module `Draft`): the earlier class in `src/sqvirrel.js`,
  modelled as written. This includes its wiring slips: `applyAdapter` writes
  `_delete` into the PUT slot, `put` calls the POST slot, the constructor
  overwrites the slots with the adapter's raw entries, and no verb passes the
  port.

## Model

| member | source | states |
|---|---|---|
| `Promises.All` | lib/utils/helpers.js:2-8 | `Promise.all` fulfils exactly when every input fulfils, with every value in input order. Otherwise it rejects with the reason of a rejected input, and every input before that one fulfilled. |
| `Helpers.Settle` | lib/utils/helpers.js:2-8 | `settle` never rejects. It returns one record per input, so an empty input gives an empty list. Record i is `{response: v}` when input i fulfils with v and `{error: e}` when it rejects with e, whatever the completion order. |
| `Helpers.SettlePlainValue` | lib/utils/helpers.js:4 | A non-promise input is settled as a response carrying the value itself. |
| `Helpers.SettleAllRejected` | lib/utils/helpers.js:1-8 | When every input rejects, settle still fulfils, with one error record per input carrying that input's reason. |
| `Helpers.Bifurcate` | lib/utils/helpers.js:10-12 | The left-to-right reduce returns bucket 0 equal to the elements whose predicate (element, index) is true and bucket 1 equal to the rest. The input is not modified, and an empty input gives two empty buckets. |
| `Helpers.PositionsExact` | lib/utils/helpers.js:10-12 | The indices a bucket keeps lie inside the input and strictly increase, so relative order is kept. Index i is listed for bucket 0 exactly when the predicate called with element i and index i is true, and for bucket 1 exactly when it is false. |
| `Helpers.SelectIsSubsequence` | lib/utils/helpers.js:12 | Each bucket has one element per kept index, and its k-th element is the input element at the k-th kept index. |
| `Helpers.SelectPartitions` | lib/utils/helpers.js:12 | The bucket lengths sum to the input length, and every input index is kept by exactly one bucket, so every element lands in exactly one bucket. |
| `Helpers.SelectFromInput` | lib/utils/helpers.js:12 | Nothing appears in a bucket that was not in the input. |
| `JsModel.MergeHeaders` | lib/sqvirrel.js:57 | `Object.assign({}, this.headers, additionalHeaders)` holds the keys of both sources. A key in `additionalHeaders` takes that value, and any other key keeps the instance header's value. |
| `JsModel.RestOf` | lib/sqvirrel.js:66 | The rest element `...others` collects exactly the object's own properties other than the ones destructured beside it, with their values. |
| `Client.AdapterMethodsEnumerate` | lib/sqvirrel.js:5-12 | `ADAPTER_METHODS` has six entries, lists every slot once, and the slot names are distinct. |
| `Client.AppliedSlots` | lib/sqvirrel.js:31-42 | A falsy or non-object adapter leaves every slot unchanged. An object adapter sets each slot to the adapter's entry when that entry is a function, and to null otherwise. |
| `Client.Sqvirrel.Create` | lib/sqvirrel.js:15-29 | Null params throw a TypeError, and a falsy host throws "Host URL is mandatory". Otherwise host is stored as given, port defaults to 443 and headers to {}. The slots are the applied adapter's when the adapter is truthy, and undefined otherwise. Without an adapter, every verb rejects with its missing-adapter error. |
| `Client.Sqvirrel.ApplyAdapter` | lib/sqvirrel.js:31-42 | The new slots are `AppliedSlots` of the old ones, and host, port and headers are unchanged. Each verb the adapter does not supply as a function now rejects with "Missing _<verb> adapter method". |
| `Client.Sqvirrel.RemoveAdapter` | lib/sqvirrel.js:44-48 | Every slot holds its own name, and host, port and headers are unchanged. Every verb then passes the guard but rejects with a TypeError for any arguments and any adapter behaviour. |
| `Client.Sqvirrel.BundleFor` | lib/sqvirrel.js:55-113 | The object each verb hands its adapter always carries the call's `restPath`. OPTIONS sends exactly host, port, restPath, headers and `others`. The first four are the instance's and the merged headers, and `others` holds the call's remaining properties. HEAD, GET and DELETE also send `query`, and POST and PUT send `body`, each defaulting to null. These verbs spread the call's remaining properties last, so a `host`, `port` or `headers` property of the call replaces the instance's host, port or merged headers. Every other remaining property, such as `body` on a GET, is passed along unchanged, and the object has no other keys. |
| `Client.SpreadOverridesInstance` | lib/sqvirrel.js:77-80 | `get({restPath: "/p", host: "b", headers: {X: "1"}})` sends host "b" and headers `{X: "1"}`, keeps the instance port and sends a null query. |
| `Client.OptionsNestsRest` | lib/sqvirrel.js:55-58 | `options` with the same params keeps the instance host and nests `host` and `headers` under `others`. |
| `Client.Sqvirrel.Request` | lib/sqvirrel.js:50-114 | A falsy slot rejects with "Missing _<verb> adapter method" without calling anything. Null params or a non-function slot reject with a TypeError. Otherwise the outcome is exactly the slot function's outcome on the object `BundleFor` describes. |
| `Client.Sqvirrel.BatchRequest` | lib/sqvirrel.js:116-125 | A missing or null argument rejects with the TypeError `Array.from` throws inside `settle`. For any array of calls it always resolves. `responses` is the settled records selected by `!entry.error` and `errors` is the rest, both in call order. |
| `Client.BatchClassifies` | lib/sqvirrel.js:116-125 | Call i is among the responses exactly when it fulfils or rejects with a falsy reason, and among the errors exactly when it rejects with a truthy reason. The buckets together hold one record per call. Every error record carries a truthy reason. |
| `Client.BucketsMatchFilter` | lib/sqvirrel.js:119 | Every record in `errors` is an error record with a truthy `error`. Every record in `responses` is a response record or an error record with a falsy `error`. |
| `Client.FalsyRejectionIsResponse` | lib/sqvirrel.js:119 | A call rejected with `undefined` is settled to `{error: undefined}` and lands in `responses`. |
| `Client.BatchMixedScenario` | lib/sqvirrel.js:116-125 | Calls resolving "OK", rejecting Error("boom"), and resolving "OK" give two "OK" responses in order and the one error. |
| `Draft.Sqvirrel.Create` | src/sqvirrel.js:4-25 | A null or undefined argument throws a TypeError. The adapter is destructured before host is checked, so a missing adapter throws a TypeError first. A falsy host then throws "host URL is mandatory". Otherwise port defaults to 443, headers are stored as given, and the six slots hold exactly the adapter's own entries, whatever `applyAdapter` stored. |
| `Draft.Sqvirrel.ApplyAdapter` | src/sqvirrel.js:27-37 | A null or undefined adapter throws and changes nothing. Otherwise OPTIONS takes the entry as is, and GET, HEAD and POST take theirs or null. The PUT slot gets the adapter's `_delete` or null, and the DELETE slot is untouched. |
| `Draft.Sqvirrel.BundleFor` | src/sqvirrel.js:39-91 | Each verb sends exactly host, restPath and the merged headers, plus `query` for GET, HEAD and DELETE and `body` for POST and PUT. The object has no port and nothing else from the call. GET's query and POST's body are sent as given, with no default. HEAD's and DELETE's query default to null, and PUT's body defaults to "". |
| `Draft.Sqvirrel.Request` | src/sqvirrel.js:39-91 | An omitted or null argument rejects first. A falsy guard slot rejects with "Missing <VERB> adapter method". PUT guards on the PUT slot but calls the POST slot. Otherwise the outcome is the called function's outcome on the object `BundleFor` describes. |

## Left out

- `Promises.All`: when several inputs reject, `Promise.all` rejects with the first to reject in time. The model picks the first in input order: it rejects with the reason of the first rejected input by position, and every input before it fulfilled. Timing is not modelled.
- `Helpers.Settle` takes a sequence. `Array.from` on a non-array argument is not modelled: strings, array-likes and other iterables are left out. `Client.Sqvirrel.BatchRequest` models the nullish argument, where `Array.from` throws.
- Promise scheduling, event-loop interleaving and the moment each call starts are not modelled. Each pending call is represented by its already-determined outcome.
- A predicate that throws inside `bifurcate` is not modelled: predicates are total functions here. The only caller, `batchRequest`, uses a filter that cannot throw.
- `Object.assign` is modelled for plain-object sources, and null, undefined and other primitives contribute nothing. A string source's indexed characters, array sources and a function's own properties are not modelled. For the same reason, property lookup and rest properties read only plain objects.
- Numbers are integers plus NaN. Fractions, -0 and BigInt, and their truthiness, are not modelled.
- The text of engine TypeErrors (destructuring null, calling a non-function) is not modelled. Only the error class is.
- What an adapter function does (network I/O over superagent or Node `https`) is a parameter. Each verb calls its slot as a method, so a non-arrow adapter function runs with the instance as `this`. Neither that `this` nor any change the adapter makes to the instance is modelled: `invoke` sees only the bundle, and `Request` reads the state before the call. src/adapters/superagent.js and src/adapters/nodeHttpsRequest.js are not part of this model.
- src/utils/basicAuth.js is not part of this model. It is base64 encoding done by `Buffer`/`btoa`, a foreign call.
