/**
 * The callable things the endpoint and the service shells pass around,
 * modelled as values: transport calls, method handlers built from
 * interceptors, validation and an action, the commandable actions kept in
 * the dispatch table, and the loaded service definitions bound to a server.
 */
module Handlers {
  import opened Wrappers
  import opened Wire

  /** An incoming transport call; only its request message matters here. */
  datatype Call = Call(request: Json)

  /** What an awaited handler produces: a value (possibly null) or the error it rejects with. */
  datatype Outcome = Returned(value: Json) | Threw(fault: Fault)

  /**
   * What a middleware decides before the rest of the chain runs: hand a
   * (possibly changed) call to `next`, or stop without calling it and answer
   * with its own outcome, a value or an error.
   */
  datatype Step = Proceed(call: Call) | Stop(outcome: Outcome)

  /**
   * A middleware `(call, next) => ...` that calls `next` at most once: `before`
   * either forwards a call to `next` or answers without calling it, and
   * `after` maps what `next` produced to its own result.
   */
  datatype Interceptor = Interceptor(id: nat, before: Call -> Step, after: Outcome -> Outcome)

  /** A validation schema, known only by identity; checking is an external library call. */
  datatype Schema = Schema(id: nat)

  /** The function installed for one method: an action wrapped by validation, authorization and interceptors. */
  datatype Handler =
    | Leaf(id: nat, body: Call -> Outcome)
    | Validated(schema: Option<Schema>, next: Handler)
    | Authorized(authorize: Interceptor, next: Handler)
    | Intercepted(interceptor: Interceptor, next: Handler)

  /** An entry of a service implementation map handed to the server. */
  datatype MethodImpl =
    | Pipeline(handler: Handler)   // a method registered by a service shell
    | InvokeDispatch               // the "invoke" method, which consults the endpoint's dispatch table

  /** A loaded protocol package or service definition: an object with named members. */
  datatype PackageObject = PackageObject(members: map<string, PackageObject>)

  /** A service definition added to the server together with its implementation. */
  datatype Binding = Binding(service: PackageObject, implementation: map<string, MethodImpl>)

  /** How a command of a controller ends: its promise resolves or rejects, or it throws before returning one. */
  datatype CommandOutcome = Resolved(value: Json) | Rejected(fault: Fault) | ThrewSync(fault: Fault)

  /** A command of a controller's command set. */
  datatype Command = Command(name: string, execute: (Option<string>, Parameters) -> CommandOutcome)

  /** A dispatch-table action: a command bound to its fully qualified dispatch key. */
  datatype Action = CommandAction(key: string, command: Command)
}
