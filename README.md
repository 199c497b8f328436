# jsend-utils: a Dafny model of the JSend envelope layer

jsend-utils gives Express handlers one response shape, the JSend envelope
`{code, status, data, message}`. This project models its three parts, all in `index.js`:

- **Envelope builders** (`createJSendSuccess`, `createJSendClientError`,
  `createJSendClientValidationError`, `createJSendServerError`). They are total
  functions in module `JSendEnvelope`. The status argument is `httpStatus || default`.
  `Option<int>` models it: `None` (undefined) and `Some(0)` take the default, which is
  200, 400 or 500. The validation builder always uses 422. The status words keep the
  library's deliberate swap of JSend's words: a client error is `"error"` and a server
  error is `"fail"`.
- **Error hierarchy** (`JSendError`, `JSendClientError`, `JSendClientValidationError`,
  `JSendServerError`). Module `JSendErrors` models it as a tagged datatype. `instanceof`
  is a walk up the `extends` chain to the built-in `Error`, and it is proved to agree
  with a table of ancestors. Each constructor is the base `super()` result followed by
  the subclass body, which overwrites `data` and then `message`. For
  JSendClientValidationError, `super()` first runs the JSendClientError constructor
  with no arguments, as in the source. A message is `Option<string>`, and `None` and
  `Some("")` count as falsy.
- **Response decorator** (`decorateExpressResponse`). Module `ExpressDecorator` models an
  Express response as a class with fields `statusCode`, `sent` (the objects given to
  `res.json`, in order) and `decorated`. Each of the five installed methods is a method
  on that class. It sets `statusCode` to the envelope's code and appends exactly that
  envelope to `sent`.

The JavaScript objects that this code reads or sends are `JsObject` values. Each of
their four keys may be absent. A key that holds `undefined` counts as absent, which is
how JSON serialisation treats it. This applies to `data` as well as `message`: a
builder's `data` argument is `Option<D>`, and `None` stands for an omitted argument
(`jsendSuccess()`, `jsendServerError(message)`). JSON `null` is a value of `D`.

Two details follow the code exactly, where a reading of "defaults to" might suggest otherwise:

- The default uses `||`, not `??`. An explicit status of 0 therefore also gets the
  default (`JSendEnvelope.StatusOr`).
- An error envelope carries the caller's message as given, and that message may be
  `undefined`. The builders do not guarantee that a message is present. They
  guarantee only that a success envelope has none.

## Model

| member | source | states |
|---|---|---|
| `JSendEnvelope.StatusOr` | index.js:12 | `httpStatus \|\| fallback`: the argument when it is truthy (present and non-zero), the fallback otherwise; never 0 when the fallback is not |
| `JSendEnvelope.CreateSuccess` | index.js:11-18 | code is the status when truthy, else 200; status is "success"; data unchanged; no message key |
| `JSendEnvelope.CreateClientError` | index.js:31-39 | code is the status when truthy, else 400; status is "error"; data and message unchanged |
| `JSendEnvelope.CreateClientValidationError` | index.js:50-52 | equals the client-error envelope with status 422, so code is always 422 and status "error" |
| `JSendEnvelope.CreateServerError` | index.js:65-73 | code is the status when truthy, else 500; status is "fail"; data and message unchanged |
| `JSendEnvelope.StatusIdentifiesBuilder` | index.js:11-73 | "success" comes only from the success builder, "error" only from the two client builders, "fail" only from the server builder; data is always the argument |
| `JSendEnvelope.BuildIsBuilderEnvelope` | index.js:11-73 | every built envelope has a non-zero code, and a success envelope has no message |
| `JSendEnvelope.RecoverRebuilds` | index.js:11-73 | an envelope of builder shape is rebuilt exactly by the call read off its status |
| `JSendEnvelope.BuilderRange` | index.js:11-73 | an envelope can be produced by some builder call if and only if its code is non-zero and, when it is a success, it has no message |
| `JSendEnvelope.StatusFromName` | index.js:15-69 | decoding inverts the status words written at lines 15, 35 and 69, and the three words are distinct |
| `JSendEnvelope.ToObject` | index.js:13-17 | the object literal of an envelope has its code, a status word that decodes to its status, and its data and message exactly as passed (absent when omitted) |
| `JSendEnvelope.FromObject` | index.js:13-72 | the inverse of the object literals at lines 13-17, 33-38 and 67-72 (no source code reads an object back): an object reads as an envelope exactly when its code and a known status word are present, and it is then that envelope's object literal |
| `JSendEnvelope.ObjectRoundTrip` | index.js:13-72 | the object literal of any envelope, as built at lines 13-17, 33-38 and 67-72, reads back as the same envelope |
| `JSendErrors.InstanceOf` | index.js:314-391 | `instanceof` walks the `extends` chain; a class is found only at the same or a smaller depth, and at the same depth only itself |
| `JSendErrors.InstanceOfIsAncestry` | index.js:314-391 | walking the prototype chain finds a class exactly when the class declarations make it an ancestor |
| `JSendErrors.InstanceOfTransitive` | index.js:340-391 | `instanceof` along the `extends` chain is transitive |
| `JSendErrors.EveryClassIsAnError` | index.js:314 | every class of the hierarchy is an instance of the built-in Error |
| `JSendErrors.InstanceOfAntisymmetric` | index.js:314-391 | two distinct classes are never instances of each other |
| `JSendErrors.MessageOr` | index.js:350 | `message \|\| fallback`: the message when it is present and non-empty, the fallback otherwise; non-empty when the fallback is |
| `JSendErrors.NewJSendError` | index.js:315-325 | the object, or `{}` when it is omitted, is stored unchanged as data; the message is the object's message when truthy, else "Error" |
| `JSendErrors.InitClientError` | index.js:349-350 | data is the client-error envelope of the same arguments; message is its message or "Client Error" |
| `JSendErrors.InitClientValidationError` | index.js:374-375 | data is the validation envelope of the same arguments; message is its message or "Validation Error" |
| `JSendErrors.InitServerError` | index.js:400-401 | data is the server-error envelope of the same arguments; message is its message or "Server Error" |
| `JSendErrors.Super` | index.js:315-325 | what JSendError's constructor, reached through `super()` with no argument, leaves: the class being constructed, data `{}` and message "Error". For JSendClientValidationError, JSendClientError's body then runs on that result (data `{code: 400, status: "error"}`, message "Client Error") before the validation body does |
| `JSendErrors.NewClientError` | index.js:340-352 | `new JSendClientError(m, d, s)` has class JSendClientError, the client-error envelope of its arguments as data, and its message or "Client Error" |
| `JSendErrors.NewClientValidationError` | index.js:365-377 | `new JSendClientValidationError(m, d)`, with its `super()` running JSendClientError's constructor, has class JSendClientValidationError, the 422 envelope as data, and its message or "Validation Error" |
| `JSendErrors.NewServerError` | index.js:391-403 | `new JSendServerError(m, d, s)` has class JSendServerError, the server-error envelope of its arguments as data, and its message or "Server Error" |
| `JSendErrors.SuperIsOverwritten` | index.js:341-402 | a subclass constructor's result does not depend on the data and message that `super()` left |
| `JSendErrors.ConstructedError` | index.js:314-403 | every constructed error has its class, is a JSendError and an Error, and shows its data's message or the class default, never an empty message |
| `JSendErrors.SubclassCarriesEnvelope` | index.js:340-403 | a subclass error's data is its builder's envelope, and it is a client error exactly when the status is "error" and a server error exactly when it is "fail" |
| `JSendErrors.ValidationErrorIsAClientError` | index.js:365-377 | a validation error is a validation error, a client error, a JSendError and an Error, and not a server error |
| `JSendErrors.ClientErrorIsNotAValidationError` | index.js:340-352 | a client error is a client error, a JSendError and an Error, and neither a validation nor a server error |
| `JSendErrors.ServerErrorIsNotAClientError` | index.js:391-403 | a server error is a JSendError and an Error, and no kind of client error |
| `JSendErrors.JSendErrorIsNoSubclass` | index.js:314-326 | a plain JSendError is none of the three subclasses |
| `ExpressDecorator.Response.Decorate` | index.js:229-302 | after decoration the jsend methods are available; nothing else changes, and decorating again changes nothing |
| `ExpressDecorator.Response.Status` | index.js:240 | `this.status(code)` sets the status code to `code`, whatever it is, and changes nothing else |
| `ExpressDecorator.Response.Json` | index.js:240 | `.json(obj)` appends exactly `obj` to what was sent and changes nothing else |
| `ExpressDecorator.Response.Send` | index.js:239-240 | `this.status(jsendObj.code).json(jsendObj)`: the status becomes the envelope's code, and exactly its object literal is appended, so the status matches the last object sent |
| `ExpressDecorator.Response.JSendSuccess` | index.js:238-241 | status becomes the success envelope's code, and exactly that envelope is appended to what was sent |
| `ExpressDecorator.Response.JSendClientError` | index.js:254-257 | status becomes the client-error envelope's code, and exactly that envelope is appended to what was sent |
| `ExpressDecorator.Response.JSendClientValidationError` | index.js:268-271 | status becomes 422, and exactly the validation envelope is appended to what was sent |
| `ExpressDecorator.Response.JSendServerError` | index.js:284-287 | status becomes the server-error envelope's code, and exactly that envelope is appended to what was sent |
| `ExpressDecorator.PassThroughObject` | index.js:296-300 | an object is passed as it is; null or undefined throws a TypeError; text that does not parse throws a SyntaxError, text that parses to null a TypeError, and text that parses to an object yields that object |
| `ExpressDecorator.Response.JSendPassThrough` | index.js:296-301 | a SyntaxError or TypeError propagates and leaves the response unchanged; otherwise the object is sent unchanged and the status becomes its `code` |
| `ExpressDecorator.PassThroughReplaysBuilder` | index.js:238-301 | passing a built envelope through, as an object or as text, leaves a fresh response in the same state as the builder method does |
| `JSendScenarios.JSendErrorKeepsItsObject` | test/index.js:9-34 | the test's JSendError keeps its object and message and is an Error |
| `JSendScenarios.JSendErrorOfNothing` | index.js:315 | `new JSendError()` has data `{}` and message "Error" |
| `JSendScenarios.ClientErrorDefaultsAndOverride` | test/index.js:58-67 | the test's client errors have codes 400 and 422, status "error", and their messages |
| `JSendScenarios.ClientValidationErrorIs422` | test/index.js:92-99 | the test's validation error has code 422 and status "error" |
| `JSendScenarios.ServerErrorDefaultsAndOverride` | test/index.js:125-134 | the test's server errors have codes 500 and 501, status "fail", and their messages |

## Left out

- `JSON.parse` in `jsendPassThrough` is a foreign call. The model passes it in as the parameter `parse`, which returns None for malformed text; that failure propagates as a `SyntaxError` in the method's `thrown` result.
- `Error.captureStackTrace` and `this.name = this.constructor.name` are diagnostics. The model does not represent the stack trace or `name` beyond the class tag.
- The `http-status` table is replaced by the literals 200, 400, 422 and 500.
- Express internals are not modelled: serialisation and transmission by `res.json`, and the response that `status(...).json(...)` returns for chaining. `res.status` only sets `statusCode`, and `res.json` only appends to `sent`.
- The documented ranges [200, 299], [400, 499] and [500, 599] are never checked by the library. They appear as comments, not preconditions.
- Inputs outside the typed model are not covered: a non-integer or NaN status, a message that is not a string, and a `null` or non-object argument to `JSendError`.
- ExpressDecorator.Response.JSendPassThrough: JSON text that parses to a value other than null or an object (a number, a string, a boolean, an array) is sent as it is with status `undefined` by the library. The model has no such value, because `parse` yields only null or an object and `sent` holds objects.
- Objects are modelled as values, not references. `new JSendError(obj)` keeps a reference to `obj` (index.js:323) but computes `message` once (index.js:324), so a later change to `obj.message` would show in `err.data` and not in `err.message`. The library itself never mutates these objects, so none of its own behaviour is lost.
- JsObject holds only the four JSend keys. A passed-through third-party object with extra keys is represented by those four keys alone.
- Each call of decorateExpressResponse installs five new closures that behave like the ones before. The model records decoration as a flag.
