# deadass-dto: the Response builder, modelled in Dafny

The repository is one class, `Response`. It is a fluent builder for API
response envelopes. The builder keeps a private envelope `#resp`. A fresh
builder starts as `{status: 200, success: true, message: ""}`. Seven
chainable setters (`status`, `success`, `message`, `type`, `action`,
`metadata`, `add`) overwrite entries of the envelope in place and return the
same instance. `toJson` copies the envelope into a new object and adds a
`data` key that refers back to the instance. `callback` hands that object to
a caller's function. DTOs extend the class and put their own attributes
(`name`, `age`, `users`) on the instance.

The project has three modules:

- `Envelope` (envelope.dfy) is the envelope as a value. `Apply` gives the
  assignments one setter call makes and `Run` applies a whole chain.
  `Written` and `LastWrite` give a separate key-by-key account: after a
  chain, each key holds what the last call that wrote it wrote.
  The envelope also records whether it still reaches Object.prototype's
  `__proto__` accessor, which decides what `add("__proto__", v)` does.
  `Consistent` is the invariant the setters keep unless `success` is
  overridden: `success` equals the status rule applied to `status`. The
  lemmas prove when that invariant holds and when it breaks.
- `Builder` (builder.dfy) holds the class `Response`. Its field `resp` is
  `#resp`. Its field `payload` stands in for a subclass's own attributes.
  Each setter is a method with `modifies this`resp`. Its `ensures` ties the
  new envelope to `Apply` of the old one and says it returns `this`.
  `RunSnoc` lets those postconditions compose: a chain of setter calls
  leaves `Run` of the chain. `ToJson` is a function that reads only the
  instance.
- `Examples` (examples_dto.dfy) builds the two DTOs of the example program
  and the ordering cases, and states what they serialise to.

Values are a small JSON-like datatype: numbers (as `int`), booleans,
strings, null, arrays and objects.

One might expect `data` to expose the envelope fields too. In the code,
`data` is the instance itself (index.js:105). The envelope lives
in a private class field, which is not an own property of the instance.
The model follows the code. `data` is a reference to the instance. Through
it one reaches `payload`, and the envelope is read through `ToJson`.

## Model

| member | source | states |
|---|---|---|
| `Builder.Response.constructor` | index.js:21-25 | a fresh builder's envelope is exactly status 200, success true and message "" (so it is consistent), with no type, action or metadata key, and it inherits the `__proto__` accessor; the subclass attributes are the ones given |
| `Builder.Response.Status` | index.js:33-37 | sets status to the code and success to 200 <= code < 210, so the envelope is consistent afterwards; every other key and the attributes are unchanged; returns the same instance |
| `Builder.Response.Success` | index.js:44-47 | overwrites success alone and leaves status as it was; returns the same instance |
| `Builder.Response.Message` | index.js:54-57 | sets message and nothing else; returns the same instance |
| `Builder.Response.Type` | index.js:64-67 | sets type, creating it if absent, and nothing else; returns the same instance |
| `Builder.Response.Action` | index.js:74-77 | sets action, creating it if absent, and nothing else; returns the same instance |
| `Builder.Response.Metadata` | index.js:84-87 | replaces metadata wholesale and nothing else; returns the same instance |
| `Builder.Response.Add` | index.js:95-98 | sets any key, named ones included, to the value unchecked; the exception is `__proto__` while the envelope still reaches the inherited accessor: then the entries stay as they were, and the envelope loses the accessor exactly when the value is null or an object with its own `__proto__` entry; success is not recomputed unless the key is success itself; returns the same instance |
| `Builder.Response.ToJson` | index.js:104-106 | the output has the envelope's own keys (an own `__proto__` entry included) plus data; every envelope key other than data maps to its current value; data refers to the instance and wins over an envelope entry of that name; reads only the instance |
| `Builder.Response.Callback` | index.js:112-114 | returns the callback applied to the serialised object and changes nothing |
| `Builder.ToJsonRoundTrip` | index.js:104-106 | the envelope entries of the serialised object are exactly the envelope minus any entry named data |
| `Builder.ToJsonDependsOnEnvelope` | index.js:104-106 | two builders with equal envelope entries serialise to the same keys and the same envelope entries, so repeated serialisation without mutation agrees |
| `Envelope.Apply` | index.js:33-98 | each setter call gives every key it writes the written value (created or replaced wholesale) and leaves every other key as it was or absent; the generic setter on `__proto__` writes no key while the envelope reaches the accessor and an ordinary entry once it does not; only a `__proto__` write of null or of an object with its own `__proto__` entry cuts the envelope off, and nothing reconnects it |
| `Envelope.RunSnoc` | index.js:33-98 | appending a setter call to a chain applies it to the chain's result, so calls made one after another on the builder compose into `Run` |
| `Envelope.AddProtoEffect` | index.js:95-98 | add("__proto__", v) on an envelope that reaches the accessor leaves every entry as it was and keeps the accessor unless v is null or an object with its own `__proto__`; on an envelope cut off from it, it stores v under `__proto__` like any other key |
| `Envelope.RunInherits` | index.js:95-98 | after a chain the envelope reaches the accessor exactly when it did before and no call of the chain cut it off |
| `Envelope.LastWriteWins` | index.js:33-98 | after any chain of setter calls a key holds the value of the last call that wrote it, or its starting value when none did; a write to `__proto__` counts only when the calls before it had cut the envelope off |
| `Envelope.StatusDerivesSuccess` | index.js:33-36 | after a status call followed only by calls that do not write success, success equals the status rule for that code |
| `Envelope.DirectSuccessOverrides` | index.js:44-46 | after a success call followed only by calls that do not write success, success is the value given |
| `Envelope.DefaultsConsistent` | index.js:21-25 | the default envelope has exactly the keys status, success and message, and is consistent |
| `Envelope.StatusMakesConsistent` | index.js:33-36 | a status call makes any envelope consistent |
| `Envelope.RunKeepsConsistent` | index.js:33-98 | a chain without a direct success call and without add on status or success keeps a consistent envelope consistent |
| `Envelope.SuccessConsistentIff` | index.js:44-46 | a direct success call keeps the envelope consistent if and only if it writes the flag the status rule gives |
| `Envelope.AddStatusConsistentIff` | index.js:95-98 | add("status", v) stores v unchecked and keeps success; the envelope stays consistent if and only if v is a number the rule maps to the old flag |
| `Examples.FetchUser` | example.js:3-19 | UserDto("Ben", 10) with message "Fetched user" serialises to status 200, success true, that message, and data carrying name and age |
| `Examples.BuildUsers` | example.js:11-31 | the builder after the paginated chain holds `Run` of that chain on the defaults: status 200, success true, the message, the action, id 123 and the metadata object, with the users attribute untouched |
| `Examples.UsersChainEnvelope` | example.js:22-31 | running the paginated chain's calls on the defaults gives exactly those six entries |
| `Examples.FetchUsers` | example.js:22-32 | the paginated chain serialises to exactly those envelope entries plus data, and data carries the users attribute |
| `Examples.DetachedProto` | index.js:95-106 | add("__proto__", null).add("__proto__", 5) serialises with the keys status, success, message, `__proto__` and data, and `__proto__` is 5 |
| `Examples.OverrideOrder` | index.js:33-46 | status(404).success(true) serialises with success true; success(true).status(404) with success false |
| `Examples.GenericOverwrite` | index.js:95-106 | add("status", "weird") serialises status as that string with success still true; add("data", 1) is shadowed by the instance; add("__proto__", {}) adds no key, so the output keys are exactly status, success, message and data |

## Left out

- The coercion in `code >= 200 && code < 210` when `status` gets a non-number: `status` takes an `int` here. Non-numeric statuses reach the envelope only through `Add`. Likewise `Success` takes a `bool` and `Message`, `Type` and `Action` take a string, following the JSDoc types at index.js:41, 51, 61 and 71; in JavaScript they store whatever value is passed, `undefined` included.
- JavaScript numbers are floating point. The model's `Num` is an unbounded integer.
- Key order of the serialised object: maps are unordered. An envelope entry named `data` keeps its original position in JavaScript, and that position is not modelled.
- Live aliasing through `data`, and through objects stored by `metadata` and `add`. Those objects are kept by reference and `toJson` copies one level deep. So a caller who later mutates such an object changes the envelope and every object returned earlier. The model stores values, and reasons about the `data` reference only at the moment `ToJson` is evaluated. JSON stringification of the instance is not modelled.
- Builder.Response.Add: `Value` has numbers, booleans, strings, null, arrays and objects. JavaScript also accepts `undefined`, functions and class instances, and these are not modelled. On the key `__proto__` the model records only whether the envelope still reaches the inherited `__proto__` accessor, not which object became its prototype. That suffices because `toJson` copies own entries only and plain objects and arrays carry no accessors of their own; a class instance installed as prototype could carry setters that run on later writes, and that is not modelled.
- Builder.Response.constructor: the model keeps a subclass's attributes (`payload`) apart from the builder's methods. In JavaScript an attribute the subclass sets on the instance under the name of one of the nine methods (`status`, `success`, `message`, `type`, `action`, `metadata`, `add`, `toJson`, `callback`, index.js:33-114) shadows that method on the prototype, so a later call of it throws a TypeError. The model lets the call go ahead and does not model the error.
- Builder.Response.Metadata: the value is one of the `Value` cases above, not any JavaScript value.
- Builder.Response.Callback: the callback is a pure total function. A callback that mutates the builder through `data`, or throws, is not modelled.
- Nested DTOs in `PaginatedUsersDto.users` are full builder instances in the example program. The model stores them as objects holding their attributes.
- The printing at example.js:34-36 is I/O. The module export at index.js:117-118 and the JSDoc typedefs at index.js:3-10 have no behaviour to model.
