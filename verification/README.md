# gotoearth in Dafny

A functional model of gotoearth, the Go shim between API Gateway (configured by
downtoearth) and application handlers. It covers three pieces:

- **the router**: `Router.Route` hands the whole `Event` to the handler registered
  under the exact key `evt.Route`. `SetHandler` adds or replaces one entry of the table.
- **the Lambda invokers**: `invoke` runs one remote call. It re-wraps an
  `awserr.Error` carrying one of twenty listed Lambda error codes and passes every
  other error through. `Lambda.Handle` checks the function name, uses a supplied
  payload or else encodes the event, and picks its reply by whether
  `InvocationType` is set. `SimpleLambda.Handle` always makes an "Event"
  invocation from a bare name.
- **the status tagger**: `HTTPErr` prefixes an error's text with
  `[<reason phrase>] ` when the HTTP code has a phrase, and otherwise returns the
  error itself.

The AWS call (`svc.Invoke`) is a parameter of type `Lambda.Transport`, and
`json.Marshal` is a parameter of type `Lambda.Marshaller`. Both are total functions
with unknown bodies, so every property holds for every transport and encoder. A
pure transport cannot record how often it is called, so the remote calls each
handler makes are listed by `Lambda.Calls` and `Lambda.SimpleCalls`, and each reply
is built from the transport's answers to exactly those calls. A
Go `error` is the datatype `Values.Error`, and `interface{}` is `Values.Value`. A
nil pointer or slice is `Option.None`. A Go panic becomes a precondition.

Modules, one per source file plus shared data:
`Wrappers` (Option, Result), `LambdaCodes` (the twenty codes and their lookup
table), `Values` (event, invoke records, errors, values), `Status` (error.go),
`Router` (gotoearth.go), `Lambda` (lambda.go) and `Scenarios` (the documented
and tested examples, plus a router shaped like the example shim).

Behaviour of the code worth knowing:

- `Route` returns no error of its own for an unknown route. It calls the nil
  handler, which panics, so `Route` requires the key to be registered.
- `SetHandler` assigns into the existing map. On a nil map that assignment
  panics, so it requires the table to exist.
- An `awserr.Error` whose code is not one of the twenty listed is returned as
  the same error.
- `Lambda.Handle` checks only that `FunctionName` is non-nil, so a pointer to
  `""` is accepted. Only `SimpleLambda` rejects the empty name.
- With `InvocationType` set to any value, `Lambda.Handle` returns the SDK
  output record. Without it, it returns the output's payload as raw JSON.

## Model

| member | source | states |
|---|---|---|
| `LambdaCodes.CodeName` | lambda.go:46-84 | each kind's string is the SDK constant of the same name, with the length of that name |
| `LambdaCodes.FindCode` | lambda.go:45-85 | a kind is found only if its name equals the code; no kind is found only if no table entry has that name |
| `LambdaCodes.Classify` | lambda.go:45-85 | a code gets a kind exactly when it is one of the twenty listed names, and that kind's name is the code |
| `LambdaCodes.ClassifyName` | lambda.go:45-85 | classifying a kind's own name gives back that kind, because the twenty cases are distinct |
| `LambdaCodes.CodeNameInjective` | lambda.go:46-84 | two kinds with the same code string are the same kind |
| `LambdaCodes.CodeIndex` | lambda.go:46-84 | every kind has a place in the switch's table |
| `Values.ClassifiedText` | lambda.go:47 | corrected text of a re-wrapped error: the code, then ": ", then the SDK error's text |
| `Values.ClassifiedTextAsWritten` | lambda.go:47 | the text Go's fmt produces when the code is the format string: the code followed by a `%!(EXTRA string=…)` artefact |
| `Values.AsWrittenLacksSeparator` | lambda.go:47 | for every code and detail, the as-written text has '%' right after the code, so it never matches the corrected text |
| `Values.Message` | error.go:22 | the text `err.Error()` gives: the message of an error made here, the SDK's text of an `awserr` or foreign error, and for a re-wrapped error a text that starts with the code and ends with the SDK text |
| `Status.HTTPErr` | error.go:20-25 | total; a code without a phrase returns the error itself; a code with a phrase gives a new error whose text is "[" + phrase + "] " + the old text, so it starts with '[' and ends with the old text |
| `Status.ParseTag` | error.go:10-13 | a message is read as a tag only when it really is "[" + phrase + "] " + rest with no ']' in the phrase |
| `Status.CloseAt` | error.go:22 | finds the first ']' of a string, or reports that there is none |
| `Status.TagRoundTrip` | error.go:21-22 | for every code with a phrase and every error, reading back the tagged text gives the code's phrase and the original text |
| `Router.Lookup` | gotoearth.go:25 | a handler is found exactly when the table exists and holds the key, and it is that entry |
| `Router.Selected` | gotoearth.go:25 | the handler chosen for an event is the table entry for its route key |
| `Router.Route` | gotoearth.go:24-26 | the reply is the registered handler's reply to the whole event, untransformed; the key must be registered |
| `Router.SetHandler` | gotoearth.go:30-32 | afterwards the key maps to the new handler, every other key maps as before, and the key set grows by exactly that key; a nil table is refused |
| `Router.SelectionIgnoresPayload` | gotoearth.go:25 | events with the same route key select the same handler whatever their body, path and query string |
| `Router.RouteAfterSetHandler` | gotoearth.go:24-32 | after registering h under an event's route, routing that event is calling h on it |
| `Router.SetHandlerKeepsOtherRoutes` | gotoearth.go:30-32 | registering under another key does not change how an event is routed |
| `Router.SetHandlerOverwrites` | gotoearth.go:31 | a second registration under the same key gives the same table as the second alone |
| `Lambda.MarshalFailure` | lambda.go:104-107 | the encoding error reads "evt failed to marshal: " followed by the encoder's message |
| `Lambda.TranslateError` | lambda.go:43-92 | no error stays no error; a listed `awserr` code becomes a re-wrapped error of that kind that carries the SDK text; any other error is returned as it is; a re-wrapped result comes only from a listed `awserr` code |
| `Lambda.Invoke` | lambda.go:40-93 | the SDK output is passed through; success returns the SDK response as it is; the error is the translated SDK error |
| `Lambda.PrepareInput` | lambda.go:99-109 | a missing name fails before any call; a supplied payload is sent unchanged; without one the event's encoding fills it or the encoding error is returned; no other field changes |
| `Lambda.Handle` | lambda.go:99-117 | a failed check returns "" with the error; otherwise the error is invoke's error, and the result is the output record when InvocationType is set and the output's payload as raw JSON when it is not |
| `Lambda.EventInput` | lambda.go:130-134 | the descriptor holds the name, InvocationType "Event" and the payload, and nothing else |
| `Lambda.SimpleHandle` | lambda.go:122-136 | the empty name fails with "no FunctionName given"; an encoding failure is reported; otherwise invoke's output and error for the Event descriptor are returned unchanged |
| `Lambda.AsHandler` | lambda.go:95-99 | the Lambda as a Handler answers every value as Handle does |
| `Lambda.SimpleAsHandler` | lambda.go:119-122 | the SimpleLambda as a Handler answers every value as its Handle does |
| `Lambda.Calls` | lambda.go:99-116 | `Lambda.Handle` makes no remote call when the name is missing or the event does not encode, and otherwise exactly one, with the prepared copy of the descriptor |
| `Lambda.SimpleCalls` | lambda.go:122-135 | `SimpleLambda.Handle` makes no remote call for the empty name or an encoding failure, and otherwise exactly one, with the "Event" descriptor for the encoded event |
| `Lambda.HandleUsesOnlyListedCalls` | lambda.go:99-116 | at most one call is made, and two transports that answer the listed calls alike give `Lambda.Handle` the same reply |
| `Lambda.SimpleHandleUsesOnlyListedCalls` | lambda.go:122-135 | at most one call is made, and two transports that answer the listed call alike give `SimpleLambda.Handle` the same reply |
| `Lambda.MissingNameMakesNoCall` | lambda.go:100-102 | without a name no call is listed, the reply is the same for every transport and encoder, and it is the configuration error |
| `Lambda.MarshalFailureMakesNoCall` | lambda.go:103-107 | an encoding failure lists no call, gives the same reply for every transport, and carries the encoder's message |
| `Lambda.SuppliedPayloadWins` | lambda.go:103-116 | with a payload supplied, neither the encoder nor the event changes the reply |
| `Lambda.NoPayloadLeaksBetweenCalls` | lambda.go:99-108 | a descriptor reused across events sends each event's own encoding, and the rest of the descriptor stays the same |
| `Lambda.SimpleIsEventLambda` | lambda.go:122-136 | a named SimpleLambda replies as a Lambda whose descriptor holds only that name and "Event" |
| `Lambda.EmptyNameOnlySimpleRefuses` | lambda.go:100-124 | with the name "", SimpleLambda refuses before any call, but a Lambda holding a pointer to "" calls out |
| `Scenarios.NotFoundExample` | error.go:10-12 | 404 with "it isn't there" gives "[Not Found] it isn't there" |
| `Scenarios.BadRequestTestOutput` | error_test.go:11-17 | 400 with "oh noes" gives "[Bad Request] oh noes" |
| `Scenarios.ConflictTestOutput` | error_test.go:12-18 | 409 with "oh noes" gives "[Conflict] oh noes" |
| `Scenarios.InternalServerErrorTestOutput` | error_test.go:13-19 | 500 with "oh noes" gives "[Internal Server Error] oh noes" |
| `Scenarios.NotFoundTestOutput` | error_test.go:14-20 | 404 with "oh noes" gives "[Not Found] oh noes" |
| `Scenarios.NotImplementedTestOutput` | error_test.go:15-21 | 501 with "oh noes" gives "[Not Implemented] oh noes" |
| `Scenarios.UnknownCodeUntagged` | error.go:21-24 | codes without a phrase (299, 600) return the error itself |
| `Scenarios.NotFoundTagReadsBack` | error.go:10-12 | a tagged 404 reads back as "Not Found" plus the original text |
| `Scenarios.FooHandler` | example/foo/foo.go:13-18 | the demo handler accepts only events and returns no error and a record of the "fooID" path parameter |
| `Scenarios.FooRouteScenario` | gotoearth.go:24-26 | routing a "GET:/foo/{fooID}" event with fooID "foo1" returns the demo handler's record {id: foo1} and no error |
| `Scenarios.BarRouteScenario` | lambda.go:110-111 | routing to an Event-mode Lambda on a platform that only acknowledges returns that acknowledgement and no error |
| `Scenarios.ThrottledScenario` | lambda.go:56-57 | a TooManyRequestsException from the SDK comes back as that kind, carrying the SDK text |
| `Scenarios.UnlistedCodeScenario` | lambda.go:86-87 | an `awserr` code outside the list comes back as the same error |

## Left out

- `getSession`, `lambda.New` and the transport inside `svc.Invoke` (lambda.go:34-42): the remote call is the `Transport` parameter. The model does not cover sessions, credentials, timeouts or the network.
- The internals of `json.Marshal`: it is the `Marshaller` parameter, and the encoded bytes are opaque.
- The SDK's rendering of `awserr.Error()`: the `Aws` error carries the SDK's text as given, so status codes and request ids inside that text are not modelled.
- The nil dereference in `Lambda.Handle` when `invoke` fails without an output and `InvocationType` is unset (lambda.go:113-114): every `Response` carries an output record.
- `HTTPErr` with a nil `err`: Go would print `%!s(<nil>)` for it. `Values.Error` has no nil value.
- `net/http.StatusText` is a library the model does not see. Its table is restated from Go's standard library (`Status.StatusText`).
- Event body numbers are integers. Go decodes JSON numbers as float64, and floating point is not modelled.
- Go's value receivers: the model is functional. `Router.Route` returns only a reply, so the router's table cannot change. `Handle` returns no descriptor, so the caller's `Lambda` (its `Payload` included) cannot change. The per-call copy is `Lambda.PrepareInput`'s result.
- example/main.go is not part of this model. It refers to `gotoearth.LambdaHandler`, which the package does not define, and otherwise only prints and panics. `Scenarios.ExampleRouter` rebuilds its router with `Lambda`.
- Concurrency: the code has none.
- Values.Message: gives a re-wrapped error its corrected text "<code>: <SDK text>", not the `<code>%!(EXTRA string=…)` text Go prints (see "## Findings"). So `Status.HTTPErr` of such an error carries the corrected text too.
- `Router.SetHandler`: a Go map is a reference, so in Go every copy of a `Router`, and anyone else holding its `Handlers` map, sees the new entry. The model returns a new router value and represents a single owner of the table; sharing between copies is not modelled.
- A nil `Handler`: the handler type has no nil value. In Go, `SetHandler(k, nil)` stores one, and a later `Route` on `k` panics; the model cannot register it.
- Nil maps inside an `Event`: `Body`, `Path` and `Querystring` are always maps, so the model does not tell a nil map apart from an empty one. `json.Marshal` writes `null` for the first and `{}` for the second. This difference stays inside the opaque encoder.

## Findings

| source | as written | input that shows it | evidently intended | confidence | as-written member | corrected member |
|---|---|---|---|---|---|---|
| lambda.go:46-85 | each listed code is passed to `fmt.Errorf` as the format string, and `aerr.Error()` is an argument that no verb consumes | an `awserr.Error` with code "ServiceException" and text "ServiceException: boom" gives the message `ServiceException%!(EXTRA string=ServiceException: boom)` | `<code>: <SDK error text>`, i.e. `ServiceException: ServiceException: boom` | high; not executed | `Values.ClassifiedTextAsWritten`, `Values.AsWrittenLacksSeparator` | `Values.ClassifiedText` (used by `Values.Message`) |
