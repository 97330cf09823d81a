# gRPC commandable layer — a Dafny model

This project models the core of a gRPC service layer for Node.js. That layer
lets a process expose many logical services over one gRPC server, and it
exposes arbitrary named commands through one fixed transport method,
`invoke`. The model covers four parts:

- **The endpoint** (`GrpcEndpoint`) owns the server's life cycle: `open`,
  `close`, the list of registrations it runs when it opens, the services it
  adds to the server, and the commandable dispatch table. When that table is
  not empty, the endpoint serves the `Commandable` service, whose `invoke`
  looks a method up by name, decodes its JSON arguments, runs it and packs
  the result or error into a response envelope.
- **The service shell** (`GrpcService`) sits between a user's service and
  the endpoint. It finds or creates its endpoint and registers itself there.
  On registration it runs the user's `register()` and builds each method's
  handler: validation, then optional authorization, then the interceptor
  chain. It then adds its service definition to the server; the definition
  is given directly or found in a loaded proto package by a dotted name.
- **The commandable service** (`CommandableGrpcService`) registers every
  command of a controller's command set under `<service name>.<command name>`.
  Each command gets an action that times its execution.
- **The commandable client** (`CommandableGrpcClient`) sends a command call as
  an `invoke` request and turns the response back into a value or an error.
  It also times the call.

Each stateful object of the source is a Dafny `class` whose methods update
its fields. Each method is proved equal to a pure specification function
over the object's state: `OpenSpec`, `CloseSpec`, `ApplyEffects` and so on.
The properties the source promises are then proved about those functions.
Everything the code hands to a library is a parameter of the model:

- connection resolution, file reads, TLS credentials, binding a port,
  starting the server and loading proto files are carried by `OpenEnv`;
- JSON text goes through a `JsonCodec`, and its round trip is stated as the
  predicate `Faithful`;
- the transport of the client is a function from request to response.

What a registration's `register()` does to the endpoint is modelled as a
sequence of effects (add a service, add a commandable method, throw), and a
user's `register()` as a script of calls into its shell.

Files:

- `wrappers.dfy` holds `Option` and `Result`.
- `wire.dfy` holds JSON values, faults, the invoke envelopes, timing events
  and qualified method names.
- `handlers.dfy` holds calls, outcomes, interceptors, handlers, commands and
  dispatch actions.
- `ca_bundle.dfy` splits a PEM CA bundle into certificates.
- `grpc_endpoint.dfy` holds the endpoint.
- `pipeline.dfy` holds handler execution, validation, the interceptor chain
  and authorization.
- `grpc_service.dfy` holds the service shell.
- `commandable_service.dfy` and `commandable_client.dfy` hold the two
  commandable sides.

Where the code and the system's documented behaviour differ, the model
follows the code:

- The commandable action ends its timing in a `finally` block, before the
  command's promise settles. A command that rejects is therefore timed as a
  success, and only its error reaches the caller.
- A command that throws synchronously is recorded as a failure and then
  swallowed. The caller receives an empty result, not an error, and the
  timing handle is ended twice: once as a failure and then again by the
  `finally` block.
- The endpoint never validates commandable arguments against their schema;
  the code leaves that step as a TODO.

## Model

| member | source | states |
|---|---|---|
| Wire.RebuildDescribe | src/services/GrpcEndpoint.ts:336-345 | an error described for the wire and rebuilt by the client keeps its category, code, correlation id, message and details; only the wrapped cause is lost |
| Wire.QualifiedNameInjective | src/services/CommandableGrpcService.ts:88 | dispatch keys `<service>.<command>` of dot-free service names determine both halves, so two services never share a key |
| CaBundle.LastIndexOf | src/services/GrpcEndpoint.ts:174 | the result is -1 or a position of the marker, and no occurrence lies after it |
| CaBundle.CertificatesAreSingleBlocks | src/services/GrpcEndpoint.ts:173-179 | every piece cut from a CA bundle starts with the certificate marker and contains no other marker |
| CaBundle.CertificatesReassemble | src/services/GrpcEndpoint.ts:173-179 | the pieces, in reverse, after the leftover prefix give back the whole bundle text |
| CaBundle.SplitCaBundleAsWritten | src/services/GrpcEndpoint.ts:169-180 | the loop as written: when it terminates, it yields exactly the certificate list |
| CaBundle.HeaderedBundleNeverTerminates | src/services/GrpcEndpoint.ts:173-179 | a bundle with text before its first certificate leaves a non-blank remainder with no marker, so the loop as written never ends |
| CaBundle.SplitCaBundle | src/services/GrpcEndpoint.ts:169-180 | the loop, stopped when no marker remains, yields the certificate list for every bundle |
| Endpoint.Without | src/services/GrpcEndpoint.ts:283-285 | `unregister` keeps exactly the registrations other than the one removed |
| Endpoint.WithoutCounts | src/services/GrpcEndpoint.ts:283-285 | every occurrence of the removed registration goes; the others keep their multiplicity |
| Endpoint.WithoutAbsent | src/services/GrpcEndpoint.ts:283-285 | unregistering something never registered changes nothing |
| Endpoint.UnregisterUndoesRegister | src/services/GrpcEndpoint.ts:271-285 | `register` then `unregister` of a new registration restores the list |
| Endpoint.RegisterCommadable | src/services/GrpcEndpoint.ts:407-415 | the name now maps to the action and the schema; every other name and all the rest of the state are unchanged; the two tables keep the same keys |
| Endpoint.AddServiceTo | src/services/GrpcEndpoint.ts:396-398 | adding a service fails exactly when no server exists; otherwise the binding is appended and nothing else changes |
| Endpoint.ApplyEffects | src/services/GrpcEndpoint.ts:287-293 | running registrations keeps the registration list, the URI, whether the endpoint is open and the table agreement; it succeeds exactly when no step throws, and then the server's services gain exactly the bindings added |
| Endpoint.ApplyConcat | src/services/GrpcEndpoint.ts:288-290 | running two registrations in turn is running the first, then the second unless the first threw |
| Endpoint.RegisterCommandableServiceSpec | src/services/GrpcEndpoint.ts:295-327 | with no commandable method nothing happens; otherwise the `Commandable` service is added to the open server, or the error is thrown and nothing changes |
| Endpoint.ReadFile | src/services/GrpcEndpoint.ts:163-167 | a file read succeeds exactly when a path is given and exists, and yields its contents |
| Endpoint.ReadTls | src/services/GrpcEndpoint.ts:162-187 | TLS material is the key file, the certificate file and the certificates split from the CA file, and loading fails exactly when one of the files cannot be read; corrected: the CA file is split by the terminating splitter of the Findings table |
| Endpoint.StartSpec | src/services/GrpcEndpoint.ts:216-218 | starting runs every registration and then the commandable service; on success the server is started and serves exactly those bindings, with host, port and TLS unchanged |
| Endpoint.ListenSpec | src/services/GrpcEndpoint.ts:189-218 | a server is created at the connection's host and port with the given TLS; on success it is started and serves exactly the registered bindings |
| Endpoint.TryOpenSpec | src/services/GrpcEndpoint.ts:159-218 | on success the server is started and uses TLS exactly for an `https` connection, with the material read from the configured files; corrected: it uses the terminating CA splitter |
| Endpoint.OpenSpec | src/services/GrpcEndpoint.ts:150-228 | opening an open endpoint does nothing; a resolver error propagates; otherwise the URI is recorded and either the server is started at the connection's host and port (TLS iff `https`) or the endpoint stays closed with a `CANNOT_CONNECT` error carrying the URL and the cause; corrected: it uses the terminating CA splitter |
| Endpoint.OpenServesRegistrations | src/services/GrpcEndpoint.ts:150-228 | after a successful open of a closed endpoint, plain or secure, no registration threw; the server serves exactly the services its registrations added, in order, then the `Commandable` service when some command was registered, which then was added without error |
| Endpoint.CloseSpec | src/services/GrpcEndpoint.ts:235-262 | closing a closed endpoint does nothing; otherwise the URI and both tables are cleared, and the server is dropped unless the shutdown fails, whose error is rethrown |
| Endpoint.CloseThenOpen | src/services/GrpcEndpoint.ts:235-262 | after a close the endpoint is closed, and a dispatch table after reopening comes only from a registration that adds a commandable method |
| Endpoint.NoCommandableKeepsTable | src/services/GrpcEndpoint.ts:407-415 | the dispatch table comes into existence only through a commandable registration |
| Endpoint.DecodeArgs | src/services/GrpcEndpoint.ts:350-352 | arguments flagged empty, absent or the empty string decode to the empty parameter set |
| Endpoint.InvokeCommandableMethod | src/services/GrpcEndpoint.ts:329-388 | the response is well formed; an unknown method yields `METHOD_NOT_FOUND`; an error-free response means the method was found, its arguments decoded and its action returned; an argument decoding failure yields `METHOD_FAILED` |
| Endpoint.InvokeReachesAction | src/services/GrpcEndpoint.ts:360-376 | with consistent tables a registered method runs: a value comes back as its JSON text (null as an empty result), an error as its description |
| Endpoint.GrpcEndpoint.constructor | src/services/GrpcEndpoint.ts:79-89 | a new endpoint is closed, with no registrations and no dispatch table |
| Endpoint.GrpcEndpoint.Register | src/services/GrpcEndpoint.ts:271-273 | appends the registration, nothing else changes |
| Endpoint.GrpcEndpoint.Unregister | src/services/GrpcEndpoint.ts:283-285 | removes the registration as `Without` does, nothing else changes |
| Endpoint.GrpcEndpoint.RegisterService | src/services/GrpcEndpoint.ts:396-398 | the new state is `AddServiceTo` of the old one |
| Endpoint.GrpcEndpoint.RegisterCommadableMethod | src/services/GrpcEndpoint.ts:407-415 | the new state is `RegisterCommadable` of the old one |
| Endpoint.GrpcEndpoint.RunRegistration | src/services/GrpcEndpoint.ts:288-290 | one registration's calls change the state as `ApplyEffects` says |
| Endpoint.GrpcEndpoint.PerformRegistrations | src/services/GrpcEndpoint.ts:287-291 | running every registration in order changes the state as `ApplyEffects` of all their effects says |
| Endpoint.GrpcEndpoint.RegisterCommandableService | src/services/GrpcEndpoint.ts:295-327 | the new state is `RegisterCommandableServiceSpec` of the old one |
| Endpoint.GrpcEndpoint.TryOpen | src/services/GrpcEndpoint.ts:159-218 | the new state is `TryOpenSpec` of the old one; corrected: it uses the terminating CA splitter |
| Endpoint.GrpcEndpoint.Open | src/services/GrpcEndpoint.ts:150-228 | the new state and error are `OpenSpec` of the old state; corrected: it uses the terminating CA splitter |
| Endpoint.GrpcEndpoint.Close | src/services/GrpcEndpoint.ts:235-262 | the new state and error are `CloseSpec` of the old state |
| Pipeline.ValidationGuardsAction | src/services/GrpcService.ts:348-371 | without a schema or with an empty request the wrapped action runs unchanged; with a schema whose check fails the call throws that error and the action never runs; with one whose check passes the action runs after the check |
| Pipeline.ValidatedTrace | src/services/GrpcService.ts:348-371 | a validated action that runs took the validation step exactly when a schema applies to a non-empty request, and then ran |
| Pipeline.ActionRunsLast | src/services/GrpcService.ts:348-386 | whatever the handler `Execute` runs, a call takes at least one step and nothing runs after an action |
| Pipeline.ApplyInterceptors | src/services/GrpcService.ts:373-386 | the loop from the last interceptor down builds the chain with the first interceptor outermost |
| Pipeline.NestTracePassed | src/services/GrpcService.ts:373-386 | a call every interceptor hands on enters every interceptor, in registration order, and then runs the inner handler on the call the last one forwarded |
| Pipeline.NestTraceStopped | src/services/GrpcService.ts:373-386 | a call some interceptor stops, failing it or answering it without calling `next`, enters exactly the interceptors up to and including that one, at least one and at most all of them, and never reaches the inner handler |
| Pipeline.ActionRunsOnlyWhenForwarded | src/services/GrpcService.ts:373-386 | a call whose action runs was handed on by every interceptor: its trace is the entries of all interceptors, in registration order, followed by the inner handler's trace on the forwarded call |
| Pipeline.AuthorizedInnerTrace | src/services/GrpcService.ts:421-430 | behind the interceptors, a call that reaches the action was authorized first and the action is the last thing that happens; with the chain lemma above, the action runs only after every interceptor and then the authorization |
| Pipeline.MethodHandlerOrder | src/services/GrpcService.ts:395-399 | in the handler `registerMethod` installs (`MethodHandler`), a call whose action runs was handed on by every interceptor; its steps are the interceptors in registration order, then validation when it applies to the forwarded call, then the action |
| Pipeline.StoppedCallNeverReachesAction | src/services/GrpcService.ts:421-430 | in the corrected authorized handler, a call the interceptors hand on and the authorization stops (rejects, or answers itself) enters every interceptor, in order, then the authorization, and never reaches the action; without interceptors the caller gets the authorization's own outcome |
| Pipeline.CycleNeverReturns | src/services/GrpcService.ts:425-430 | as written, when the interceptors and the authorization pass the call on, evaluation runs out of every depth bound: the call never reaches the action, and either fails with a stack overflow or never settles |
| Pipeline.CycleNeverRunsAction | src/services/GrpcService.ts:425-430 | as written, no call ever reaches validation or the action |
| Pipeline.IntendedReachesAction | src/services/GrpcService.ts:421-430 | when every interceptor and the authorization pass every call on, the as-written wrapper runs out of every depth bound (a stack overflow or a call that never settles), while the corrected `AuthorizedMethodHandler` runs the action on the same call whenever the schema's check passes |
| Pipeline.ForwardedWhenAllProceed | src/services/GrpcService.ts:373-386 | interceptors that each pass every call on forward every call to the inner handler |
| Pipeline.InnerReachesAction | src/services/GrpcService.ts:421-430 | behind the interceptors, an authorization that passes the call on and a schema check that passes lead to the action |
| Service.SplitName | src/services/GrpcService.ts:339 | splitting a service name yields at least one part and no part contains a dot |
| Service.JoinSplit | src/services/GrpcService.ts:339 | rejoining the parts with dots gives back the name |
| Service.SplitJoin | src/services/GrpcService.ts:339 | splitting dot-free parts joined with dots gives back the parts |
| Service.LookupConcat | src/services/GrpcService.ts:340-343 | looking up a path is looking up its first part, then the rest from there |
| Service.NothingFoundInNothing | src/services/GrpcService.ts:342 | once a lookup finds nothing, nothing further is found |
| Service.GetServiceByName | src/services/GrpcService.ts:335-346 | the loop returns the package itself when there is no package or no name, and otherwise follows the dotted name member by member |
| Service.FindsByDottedPath | src/services/GrpcService.ts:335-346 | a service is found by the dotted name of its path of members |
| Service.LoadedService | src/services/GrpcService.ts:304-327 | a given service definition takes precedence over the proto file; with neither, nothing is found; loading fails exactly when the proto file is to be read and fails, with that error |
| Service.RunScript | src/services/GrpcService.ts:395-455 | a user's `register()` adds only commandable methods to the endpoint directly, and completes only when none of its calls throws; a commandable call goes to the endpoint's `registerCommadableMethod` (`src/services/GrpcEndpoint.ts:407-415`), as the commandable service's call at `src/services/CommandableGrpcService.ts:90` is taken to; corrected: a `registerMethodWithAuth` call installs the intended authorized handler, not the recursive one of the Findings table |
| Service.CommandableAddsNoService | src/services/GrpcService.ts:298-333 | commandable registrations add no service to the server |
| Service.RegistrationServesDefinition | src/services/GrpcService.ts:298-333 | the services a registration (`RegistrationEffects`) adds are exactly the found service with the implementation its `register()` built, when `register()` completes and a service is found, and none otherwise; corrected: a `registerMethodWithAuth` call installs the intended authorized handler, not the recursive one of the Findings table |
| Service.RegistrationThrowsOnFailure | src/services/GrpcService.ts:298-333 | a registration whose `register()` throws, or whose proto file fails to load, throws that error on the endpoint, after the commandable methods registered before it |
| Service.OpenServesDefinition | src/services/GrpcService.ts:255-271 | after the corrected open of a shell without an endpoint succeeds, the new server serves the shell's service definition with its implementation when one is found, then the `Commandable` service when a command was registered, and nothing else |
| Service.OpenAsWrittenServesNoDefinition | src/services/GrpcService.ts:260-263 | after the as-written open of a shell without an endpoint succeeds, the new server serves at most the `Commandable` service and never the shell's definition |
| Service.SelfRegistrationServesNothing | src/services/GrpcService.ts:260-263 | registering the service object itself adds no service to the server |
| Service.GrpcService.constructor | src/services/GrpcService.ts:128-139 | a service definition or a proto path is kept as given; the shell starts closed, with no endpoint, methods or interceptors |
| Service.GrpcService.SetReferences | src/services/GrpcService.ts:166-176 | a referenced endpoint is used and shared, otherwise a new local one is created; either way the shell's registration is added to it |
| Service.GrpcService.UnsetReferences | src/services/GrpcService.ts:182-188 | the registration is removed from the endpoint and the endpoint is dropped |
| Service.GrpcService.RegisterMethod | src/services/GrpcService.ts:395-411 | the method's handler is validation wrapped in the interceptor chain |
| Service.GrpcService.RegisterMethodWithAuth | src/services/GrpcService.ts:421-442 | the method's handler is the corrected authorized pipeline: interceptors, authorization, validation, action |
| Service.GrpcService.RegisterInterceptor | src/services/GrpcService.ts:449-455 | an interceptor is appended only when an endpoint is set |
| Service.GrpcService.RegisterService | src/services/GrpcService.ts:298-333 | registration resets methods and interceptors, runs `register()` and adds the found service; the endpoint changes as `ApplyEffects` of `RegistrationEffects` says; corrected: a `registerMethodWithAuth` call installs the intended authorized handler, not the recursive one of the Findings table |
| Service.GrpcService.RunRegister | src/services/GrpcService.ts:300-302 | the user's `register()` changes shell and endpoint as `RunScript` says, and a throw stops it; corrected: a `registerMethodWithAuth` call installs the intended authorized handler, not the recursive one of the Findings table |
| Service.RunScriptHead | src/services/GrpcService.ts:300-302 | a `register()` whose first call does not throw ends, and affects the endpoint, as the rest of it does after that call |
| Service.GrpcService.Perform | src/services/GrpcService.ts:395-455 | one call of `register()` changes the shell as `StepShell` says and the endpoint only for a commandable method, which goes to the endpoint's `registerCommadableMethod` (`src/services/GrpcEndpoint.ts:407-415`); corrected: a `registerMethodWithAuth` call installs the intended authorized handler, not the recursive one of the Findings table |
| Service.GrpcService.Open | src/services/GrpcService.ts:255-271 | opening an open shell does nothing and leaves the endpoint and its state as they were; otherwise a missing endpoint is created with the shell's registration and opened, a local endpoint is opened, a shared one is left alone, and the shell is open exactly when no error occurred; corrected: the new endpoint gets the shell's registration callback, as `setReferences` gives it, not the service object itself as the code registers it (`OpenAsWritten`) |
| Service.GrpcService.OpenAsWritten | src/services/GrpcService.ts:255-271 | as written, a missing endpoint is created with the service object itself registered; an open shell and a shared endpoint are left as they were |
| Service.GrpcService.Close | src/services/GrpcService.ts:278-296 | closing a closed shell does nothing and leaves the endpoint's state as it was; without an endpoint it throws `NO_ENDPOINT`; a local endpoint is closed as `CloseSpec` says, a shared one is left alone |
| CommandableService.RunCommandAction | src/services/CommandableGrpcService.ts:88-97 | the action begins a timing under the dispatch key; a resolved value or a rejection passes through and the timing is ended once, as a success; a synchronous throw is recorded as a failure, answered with no value, and the handle is then ended a second time |
| CommandableService.SyncThrowEndsTimingTwice | src/services/CommandableGrpcService.ts:88-97 | a command's timing is closed exactly once unless the command throws synchronously, in which case the handle is ended twice |
| CommandableService.CommandEffects | src/services/CommandableGrpcService.ts:84-100 | one registration per command, in order, under `<name>.<command>`, with no schema |
| CommandableService.CommandCalls | src/services/CommandableGrpcService.ts:84-98 | `register()` makes one `registerCommadableMethod` call per command, in command-set order, under `<name>.<command>`, with no schema and that command's timed action |
| CommandableService.CommandCallsRun | src/services/CommandableGrpcService.ts:84-100 | the calls `register()` makes add exactly those registrations and leave the shell unchanged |
| CommandableService.CommandableRegistration | src/services/CommandableGrpcService.ts:71-101 | a commandable service adds no service of its own; it registers its commands, or throws the controller lookup error |
| CommandableService.RegisteredCommandsTable | src/services/CommandableGrpcService.ts:84-100 | after registration each dispatch key leads to the last command registered under it and every other key is unchanged; registration cannot fail |
| CommandableService.ServicesDoNotCollide | src/services/CommandableGrpcService.ts:88 | commands of one dot-free service name never overwrite those of another |
| CommandableService.CommandableGrpcService.constructor | src/services/CommandableGrpcService.ts:71-75 | the shell is built with no service definition and the name is kept |
| CommandableService.CommandableGrpcService.Register | src/services/CommandableGrpcService.ts:80-101 | a missing controller throws and changes neither the command set nor the endpoint; otherwise the command set is kept and the endpoint changes as `ApplyEffects` of `CommandEffects` says |
| CommandableClient.ArgumentsRoundTrip | obj/src/clients/CommandableGrpcClient.js:88-95 | the endpoint decodes exactly the arguments the client encoded, under the dispatch key `<name>.<command>` |
| CommandableClient.EncodeRequest | obj/src/clients/CommandableGrpcClient.js:88-95 | the request names `<name>.<command>` and carries the correlation id; it is flagged empty exactly when no arguments are sent and carries JSON text exactly when they are |
| CommandableClient.ReceiveAsWritten | obj/src/clients/CommandableGrpcClient.js:96-115 | as written, an empty result returns null with the timing only begun |
| CommandableClient.Receive | obj/src/clients/CommandableGrpcClient.js:96-115 | the same results as written; a transport error propagates; an error response is rebuilt and thrown; every call's timing is closed exactly once, with the failure exactly when the call fails; a result that is neither empty nor an error is what the JSON library parses from its text |
| CommandableClient.EmptyResultLeavesTimingOpen | obj/src/clients/CommandableGrpcClient.js:104-106 | an empty response leaves the as-written timing open, while the corrected one closes it |
| CommandableClient.CommandRoundTrip | obj/src/clients/CommandableGrpcClient.js:86-117 | after a service registers its commands, a client call of a command gets back what the command produced from the arguments sent: the resolved value, the rejection less its cause, or null after a synchronous throw; the call's timing is closed exactly once |
| CommandableClient.CommandableGrpcClient.constructor | obj/src/clients/CommandableGrpcClient.js:72-75 | the service name is kept |
| CommandableClient.CommandableGrpcClient.CallCommand | obj/src/clients/CommandableGrpcClient.js:86-117 | the result and the timing record are those `CommandCall` specifies; corrected: an empty result closes the timing, as `Receive` does |

## Left out

- Configuration, logging, counters, tracing and the dependency resolver are not modelled. The lookups that matter are parameters: the referenced endpoint in `SetReferences` and the controller in `Register`.
- `createEndpoint` passing configuration and references to a new endpoint is not modelled; the new endpoint starts from the initial state.
- Asynchrony is not modelled. Each `await` is taken to complete before the next step, and no two operations interleave.
- Connection resolution, discovery registration, file reads, TLS credentials, port binding, server start and shutdown, and proto loading are oracle parameters (`OpenEnv` and the `shutdown` and `proto` arguments).
- A connection resolver that returns no connection is modelled as the `TypeError` the code would raise.
- The gRPC library's own checks in `addService` (such as duplicate service names) are not modelled.
- The `_commandableService` field is only ever cleared, so it is not modelled.
- The unreachable `_implementation == null` guard of `registerMethod` is left out.
- Dispatch-table keys that collide with `Object.prototype` members are not modelled; the table is a map.
- Interceptors and authorization are taken to call `next` at most once each. One that does not call `next` answers with its own value or error (`Stop`), and the rest of the chain does not run.
- JSON numbers are integers. `JSON.stringify` is taken to be total, although it throws on circular values.
- Arguments are sent as an object or not at all.
- Schema validation of commandable arguments is left out because the code never performs it.
- CommandableService.CommandCallsRun, CommandableService.RegisteredCommandsTable, CommandableService.CommandableRegistration, CommandableService.CommandableGrpcService.Register and CommandableClient.CommandRoundTrip: `src/services/GrpcService.ts` defines no `registerCommadableMethod`, so the call at `src/services/CommandableGrpcService.ts:90` has no target in this source; the only method of that name is the endpoint's (`src/services/GrpcEndpoint.ts:407-415`), which runs actions as `(call, correlationId, args)`. The model supplies the missing forwarder: it hands the action to the endpoint with the correlation id and the arguments bound by name, as the commandable action `(correlationId, args)` expects. These members rest on that assumption; the source as given would fail at the first command instead.
- Endpoint.ReadTls, Endpoint.TryOpenSpec, Endpoint.OpenSpec, Endpoint.GrpcEndpoint.TryOpen and Endpoint.GrpcEndpoint.Open: split the CA file with the corrected `SplitCaBundle` of the Findings table, so a CA file with text before its first certificate opens instead of hanging as the code would.
- CommandableClient.CommandableGrpcClient.CallCommand: follows the corrected `Receive`, so an empty result closes the call's timing, which the code leaves open.
- Wire.RebuildDescribe: `Describe` and `Rebuild` stand in for `ErrorDescriptionFactory` and `ApplicationExceptionFactory`, which are not part of this model; that the round trip keeps category, code, correlation id, message and details is an assumption about those libraries.
- Service.GrpcService.constructor and CommandableService.CommandableGrpcService.constructor: the registration object handed to the endpoint is a separate object from the shell, a modelling device for the shell registering itself.
- Service.GrpcService.Open: registers the shell's registration callback on a new endpoint, which is the correction of the Findings table; the code registers the service object itself, modelled by `OpenAsWritten`, after which the server never serves the definition.
- Service.RunScript, Service.GrpcService.Perform, Service.GrpcService.RunRegister, Service.GrpcService.RegisterService, Service.RegistrationServesDefinition and Service.GrpcService.RegisterMethodWithAuth: a `registerMethodWithAuth` call in `register()` installs the corrected `AuthorizedMethodHandler`; the code installs a wrapper whose authorization re-enters the chain without end, so a call never reaches the action and either fails with a stack overflow or never settles; that wrapper is modelled separately by `CycleChain`.
- Pipeline.CycleChain: the as-written authorization wrapper recurses without end, so it is evaluated with a fuel bound. `CycleNeverReturns` shows that every bound runs out. Whether the unbounded recursion overflows the stack (re-entry before any `await`, so the call fails with a `RangeError`) or never settles (re-entry after one) is not distinguished; in both cases the action is never reached.
- CaBundle.SplitCaBundleAsWritten: requires the loop to terminate (`SplitTerminates`). The code would hang on the other inputs.

## Findings

| source | as written | input that shows it | evidently intended | confidence | as-written member | corrected member |
|---|---|---|---|---|---|---|
| src/services/GrpcEndpoint.ts:173-179 | the CA split loop changes the text only when a certificate marker is found; non-blank text with no marker left (such as a comment before the first certificate) loops forever | CA file `# CA\n-----BEGIN CERTIFICATE-----\n` | stop when no marker remains and keep the certificates found | not executed | CaBundle.HeaderedBundleNeverTerminates | CaBundle.SplitCaBundle |
| src/services/GrpcService.ts:425-430 | the authorization closure calls the variable `actionWrapper`, which is later reassigned to the full interceptor chain, so `authorize` calls the chain again instead of validation and the action; the call never reaches the action and fails with a stack overflow or never settles | any call whose interceptors and authorization pass it on | `authorize(call, validated)` with the validated action captured before reassignment | not executed | Pipeline.CycleNeverReturns | Pipeline.AuthorizedInnerTrace |
| src/services/GrpcService.ts:260-263 | `open` without an endpoint registers the service object itself, so the endpoint calls the user's `register()` directly and the service definition is never added to the server | a service opened without `setReferences` | register `_registerable`, as `setReferences` does | not executed | Service.OpenAsWrittenServesNoDefinition | Service.OpenServesDefinition |
| obj/src/clients/CommandableGrpcClient.js:104-106 | an empty result returns null without ending the call's timing | any command that resolves with no value | end the timing on that path too | not executed | CommandableClient.EmptyResultLeavesTimingOpen | CommandableClient.Receive |
