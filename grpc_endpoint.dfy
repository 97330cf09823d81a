/**
 * The GRPC endpoint: one server shared by every service registered with it.
 *
 * The endpoint keeps a list of registerable objects, opens a server (plain or
 * TLS) at the resolved address, lets every registration add its services,
 * serves the commandable "invoke" service when commandable methods exist, and
 * dispatches "invoke" calls through its table of commandable actions.
 *
 * The libraries it calls (connection resolver, file system, the GRPC server
 * and its credentials, discovery, the proto loader) are taken as an `OpenEnv`
 * of outcomes. What a registration does when it is asked to register is an
 * oracle too: a sequence of `Effect`s (calls back into the endpoint, or an
 * error it throws). The object state is the class `GrpcEndpoint`; each of its
 * methods is proved against a function over the abstract `EndpointState`,
 * and the lemmas and contracts about those functions carry the properties.
 */
module Endpoint {
  import opened Wrappers
  import opened Wire
  import opened Handlers
  import CaBundle

  /** A registerable object, known by identity: equal ids are the same object. */
  type RegistrationId = nat

  /** The connection parameters the resolver returns. */
  datatype Connection = Connection(
    protocol: Option<string>,
    host: string,
    port: int,
    uri: Option<string>,
    sslKeyFile: Option<string>,
    sslCrtFile: Option<string>,
    sslCaFile: Option<string>)

  /** The protocol defaults to "http"; only "https" asks for TLS. */
  predicate Secure(c: Connection)
  {
    c.protocol == Some("https")
  }

  /** What a TLS server is created with: key, certificate chain and the CA certificates. */
  datatype TlsMaterial = TlsMaterial(privateKey: string, certChain: string, ca: seq<string>)

  /** The GRPC server: its address, its credentials, the services added to it, and whether it was started. */
  datatype Server = Server(
    host: string,
    port: int,
    tls: Option<TlsMaterial>,
    services: seq<Binding>,
    started: bool)

  /** A call a registration makes back into the endpoint while registering, or the error it throws. */
  datatype Effect =
    | AddService(binding: Binding)
    | AddCommandable(methodName: string, schema: Option<Schema>, action: Action)
    | Raise(fault: Fault)

  /** The outcomes of the library calls `open` makes, and what each registration does. */
  datatype OpenEnv = OpenEnv(
    resolved: Result<Option<Connection>, Fault>,
    files: map<string, string>,
    createSsl: TlsMaterial -> Option<Fault>,
    bind: (string, int, bool) -> Option<Fault>,
    discovery: Option<Fault>,
    behaviour: RegistrationId -> seq<Effect>,
    commandableService: Result<PackageObject, Fault>,
    start: Option<Fault>)

  /** The abstract state of an endpoint. */
  datatype EndpointState = EndpointState(
    server: Option<Server>,
    uri: Option<string>,
    registrations: seq<RegistrationId>,
    methods: Option<map<string, Action>>,
    schemas: Option<map<string, Option<Schema>>>)

  /** A new state together with the error the operation threw, if any. */
  datatype Applied = Applied(state: EndpointState, error: Option<Fault>)

  /** `isOpen`: a server exists. */
  predicate Opened(s: EndpointState)
  {
    s.server.Some?
  }

  /** The two commandable tables are created and cleared together and have the same keys. */
  predicate TablesAgree(s: EndpointState)
  {
    && (s.methods.None? <==> s.schemas.None?)
    && (s.methods.Some? ==> s.methods.value.Keys == s.schemas.value.Keys)
  }

  const Initial: EndpointState := EndpointState(None, None, [], None, None)

  /** `table ? table[key] : null` on a plain object used as a dictionary. */
  function Entry<V>(table: Option<map<string, V>>, key: string): Option<V>
  {
    if table.Some? && key in table.value then Some(table.value[key]) else None
  }

  /** An error a library throws (file system, JavaScript runtime). */
  function LibraryError(code: string, message: string): Fault
  {
    Fault(Unknown, code, None, message, map[], None)
  }

  /** What property access on null throws. */
  const NullReference: Fault := LibraryError("TypeError", "Cannot read properties of null")

  /** The connection error every failure inside `open` is wrapped in. */
  function CannotConnect(correlationId: Option<string>, url: Option<string>, cause: Fault): Fault
  {
    Fault(NoResponse, "CANNOT_CONNECT", correlationId, "Opening GRPC service failed", map["url" := url], Some(cause))
  }

  /** The invocation error for a method that is not in the dispatch table. */
  function MethodNotFound(correlationId: Option<string>, name: string): Fault
  {
    Fault(FailedInvocation, "METHOD_NOT_FOUND", correlationId, "Method " + name + " was not found",
      map["method" := Some(name)], None)
  }

  /** The invocation error for an unexpected failure before the action runs. */
  function MethodFailed(correlationId: Option<string>, name: string, cause: Fault): Fault
  {
    Fault(FailedInvocation, "METHOD_FAILED", correlationId, "Method " + name + " failed",
      map["method" := Some(name)], Some(cause))
  }

  // ---------------------------------------------------------------------------
  // Registrations

  /** `registrations.filter(r => r != registration)`. */
  function Without(regs: seq<RegistrationId>, r: RegistrationId): (res: seq<RegistrationId>)
    ensures forall x :: x in res <==> x in regs && x != r
  {
    if regs == [] then []
    else (if regs[0] == r then [] else [regs[0]]) + Without(regs[1..], r)
  }

  /** Every other registration keeps its number of occurrences; the removed one has none left. */
  lemma {:induction false} WithoutCounts(regs: seq<RegistrationId>, r: RegistrationId)
    ensures multiset(Without(regs, r)) == multiset(regs)[r := 0]
  {
    if regs != [] {
      WithoutCounts(regs[1..], r);
      assert regs == [regs[0]] + regs[1..];
    }
  }

  /** Filtering keeps the order of what stays: it distributes over concatenation. */
  lemma {:induction false} WithoutConcat(a: seq<RegistrationId>, b: seq<RegistrationId>, r: RegistrationId)
    ensures Without(a + b, r) == Without(a, r) + Without(b, r)
  {
    if a == [] {
      assert a + b == b;
    } else {
      var head := if a[0] == r then [] else [a[0]];
      assert (a + b)[0] == a[0] && (a + b)[1..] == a[1..] + b;
      assert Without(a + b, r) == head + Without(a[1..] + b, r);
      WithoutConcat(a[1..], b, r);
      assert Without(a, r) == head + Without(a[1..], r);
    }
  }

  /** Filtering out an object that is not registered changes nothing; so unregistering twice is unregistering once. */
  lemma {:induction false} WithoutAbsent(regs: seq<RegistrationId>, r: RegistrationId)
    requires r !in regs
    ensures Without(regs, r) == regs
  {
    if regs != [] {
      WithoutAbsent(regs[1..], r);
    }
  }

  /** Unregistering undoes registering an object that was not registered before. */
  lemma UnregisterUndoesRegister(regs: seq<RegistrationId>, r: RegistrationId)
    requires r !in regs
    ensures Without(regs + [r], r) == regs
  {
    WithoutConcat(regs, [r], r);
    WithoutAbsent(regs, r);
  }

  // ---------------------------------------------------------------------------
  // Registering services and commandable methods

  /** `registerCommadableMethod`: creates the tables when missing and binds the name in both. */
  function RegisterCommadable(s: EndpointState, name: string, schema: Option<Schema>, action: Action): (r: EndpointState)
    ensures Entry(r.methods, name) == Some(action) && Entry(r.schemas, name) == Some(schema)
    ensures forall k :: k != name ==> Entry(r.methods, k) == Entry(s.methods, k) && Entry(r.schemas, k) == Entry(s.schemas, k)
    ensures r.server == s.server && r.uri == s.uri && r.registrations == s.registrations
    ensures TablesAgree(s) ==> TablesAgree(r)
  {
    var methods := if s.methods.Some? then s.methods.value else map[];
    var schemas := if s.schemas.Some? then s.schemas.value else map[];
    s.(methods := Some(methods[name := action]), schemas := Some(schemas[name := schema]))
  }

  /** `registerService`: adds a service to the server; there is none to add it to while the endpoint is closed. */
  function AddServiceTo(s: EndpointState, b: Binding): (r: Result<EndpointState, Fault>)
    ensures r.Failure? <==> !Opened(s)
    ensures r.Success? ==> Opened(r.value) && r.value.server.value.services == s.server.value.services + [b]
    ensures r.Success? ==> r.value.(server := s.server) == s
    ensures r.Success? ==> r.value.server.value.(services := s.server.value.services) == s.server.value
  {
    if s.server.None? then Failure(NullReference)
    else Success(s.(server := Some(s.server.value.(services := s.server.value.services + [b]))))
  }

  /** The services added by a sequence of effects, in order. */
  function Bindings(effects: seq<Effect>): seq<Binding>
  {
    if effects == [] then []
    else (if effects[0].AddService? then [effects[0].binding] else []) + Bindings(effects[1..])
  }

  /** No effect throws, and services are only added while a server exists. */
  predicate Harmless(s: EndpointState, effects: seq<Effect>)
  {
    forall i :: 0 <= i < |effects| ==> !effects[i].Raise? && (effects[i].AddService? ==> Opened(s))
  }

  /** `Harmless` one effect at a time, across a step that keeps the endpoint open or closed. */
  lemma HarmlessCons(s: EndpointState, t: EndpointState, effects: seq<Effect>)
    requires effects != [] && Opened(t) == Opened(s)
    ensures Harmless(s, effects) <==>
      !effects[0].Raise? && (effects[0].AddService? ==> Opened(s)) && Harmless(t, effects[1..])
  {
    if Harmless(s, effects) {
      forall i | 0 <= i < |effects[1..]|
        ensures !effects[1..][i].Raise? && (effects[1..][i].AddService? ==> Opened(t))
      {
        assert effects[1..][i] == effects[i + 1];
      }
    }
    if !effects[0].Raise? && (effects[0].AddService? ==> Opened(s)) && Harmless(t, effects[1..]) {
      forall i | 0 <= i < |effects|
        ensures !effects[i].Raise? && (effects[i].AddService? ==> Opened(s))
      {
        if i > 0 {
          assert effects[i] == effects[1..][i - 1];
        }
      }
    }
  }

  /** Runs effects in order; the first error stops the rest and keeps what was done before it. */
  function ApplyEffects(s: EndpointState, effects: seq<Effect>): (r: Applied)
    ensures r.state.registrations == s.registrations && r.state.uri == s.uri
    ensures Opened(r.state) == Opened(s)
    ensures TablesAgree(s) ==> TablesAgree(r.state)
    ensures s.methods.Some? ==> r.state.methods.Some?
    ensures r.error.None? <==> Harmless(s, effects)
    ensures Opened(s) ==> r.state.server.value.(services := s.server.value.services) == s.server.value
    ensures Opened(s) && r.error.None? ==> r.state.server.value.services == s.server.value.services + Bindings(effects)
    decreases |effects|
  {
    if effects == [] then Applied(s, None)
    else
      var rest := effects[1..];
      match effects[0]
      case AddService(b) =>
        (match AddServiceTo(s, b)
         case Failure(f) => Applied(s, Some(f))
         case Success(t) =>
           HarmlessCons(s, t, effects);
           assert Bindings(effects) == [b] + Bindings(rest);
           ApplyEffects(t, rest))
      case AddCommandable(name, schema, action) =>
        var t := RegisterCommadable(s, name, schema, action);
        HarmlessCons(s, t, effects);
        assert Bindings(effects) == Bindings(rest);
        ApplyEffects(t, rest)
      case Raise(f) => Applied(s, Some(f))
  }

  /** Running two sequences of effects is running the first, then the second unless the first threw. */
  lemma {:induction false} ApplyConcat(s: EndpointState, a: seq<Effect>, b: seq<Effect>)
    ensures ApplyEffects(s, a + b) ==
      var p := ApplyEffects(s, a);
      if p.error.Some? then p else ApplyEffects(p.state, b)
    decreases |a|
  {
    if a != [] {
      assert (a + b)[0] == a[0];
      assert (a + b)[1..] == a[1..] + b;
      match a[0]
      case AddService(bd) =>
        var t := AddServiceTo(s, bd);
        if t.Success? {
          ApplyConcat(t.value, a[1..], b);
          assert ApplyEffects(s, a + b) == ApplyEffects(t.value, a[1..] + b);
          assert ApplyEffects(s, a) == ApplyEffects(t.value, a[1..]);
        }
      case AddCommandable(name, schema, action) =>
        var t := RegisterCommadable(s, name, schema, action);
        ApplyConcat(t, a[1..], b);
        assert ApplyEffects(s, a + b) == ApplyEffects(t, a[1..] + b);
        assert ApplyEffects(s, a) == ApplyEffects(t, a[1..]);
      case Raise(f) =>
    } else {
      assert a + b == b;
    }
  }

  /** What the registrations do, one after the other, in registration order. */
  function Flatten(regs: seq<RegistrationId>, behaviour: RegistrationId -> seq<Effect>): seq<Effect>
  {
    if regs == [] then [] else behaviour(regs[0]) + Flatten(regs[1..], behaviour)
  }

  /** The service definition of the commandable protocol bound to the dispatching "invoke" handler. */
  function CommandableBinding(service: PackageObject): Binding
  {
    Binding(service, map[InvokeMethod := InvokeDispatch])
  }

  /** `registerCommandableService`: serves "invoke" only when commandable methods were registered. */
  function RegisterCommandableServiceSpec(s: EndpointState, service: Result<PackageObject, Fault>): (r: Applied)
    ensures r.state.(server := s.server) == s
    ensures s.methods.None? ==> r == Applied(s, None)
    ensures s.methods.Some? && r.error.None? ==>
      service.Success? && Opened(s) && Opened(r.state)
      && r.state.server.value == s.server.value.(services := s.server.value.services + [CommandableBinding(service.value)])
    ensures r.error.Some? ==> r.state == s
  {
    if s.methods.None? then Applied(s, None)
    else match service
      case Failure(f) => Applied(s, Some(f))
      case Success(p) =>
        match AddServiceTo(s, CommandableBinding(p))
        case Failure(f) => Applied(s, Some(f))
        case Success(t) => Applied(t, None)
  }

  // ---------------------------------------------------------------------------
  // Opening and closing

  /** `fs.readFileSync(path).toString()`: a null path and a missing file throw. */
  function ReadFile(files: map<string, string>, path: Option<string>): (r: Result<string, Fault>)
    ensures r.Success? <==> path.Some? && path.value in files
    ensures r.Success? ==> r.value == files[path.value]
  {
    if path.None? then Failure(LibraryError("ERR_INVALID_ARG_TYPE", "The \"path\" argument must be of type string"))
    else if path.value !in files then Failure(LibraryError("ENOENT", "no such file or directory, open '" + path.value + "'"))
    else Success(files[path.value])
  }

  /** The key, the certificate chain and, when a CA file is named, its certificates. */
  function ReadTls(files: map<string, string>, c: Connection): (r: Result<TlsMaterial, Fault>)
    ensures r.Success? <==>
      ReadFile(files, c.sslKeyFile).Success? && ReadFile(files, c.sslCrtFile).Success?
      && (c.sslCaFile.Some? ==> c.sslCaFile.value in files)
    ensures r.Success? ==> r.value.privateKey == files[c.sslKeyFile.value] && r.value.certChain == files[c.sslCrtFile.value]
    ensures r.Success? ==> r.value.ca == if c.sslCaFile.None? then [] else CaBundle.Certificates(files[c.sslCaFile.value])
  {
    var key := ReadFile(files, c.sslKeyFile);
    if key.Failure? then Failure(key.error)
    else
      var crt := ReadFile(files, c.sslCrtFile);
      if crt.Failure? then Failure(crt.error)
      else if c.sslCaFile.None? then Success(TlsMaterial(key.value, crt.value, []))
      else
        var ca := ReadFile(files, c.sslCaFile);
        if ca.Failure? then Failure(ca.error)
        else Success(TlsMaterial(key.value, crt.value, CaBundle.Certificates(ca.value)))
  }

  /** The services a successful start leaves on the server, after the ones it already had. */
  function StartedServices(s: EndpointState, env: OpenEnv, commandable: bool): seq<Binding>
    requires commandable ==> env.commandableService.Success?
  {
    Bindings(Flatten(s.registrations, env.behaviour))
      + (if commandable then [CommandableBinding(env.commandableService.value)] else [])
  }

  /** `performRegistrations(); server.start()`. */
  function StartSpec(s: EndpointState, env: OpenEnv): (r: Applied)
    requires Opened(s)
    ensures r.state.registrations == s.registrations && r.state.uri == s.uri && Opened(r.state)
    ensures TablesAgree(s) ==> TablesAgree(r.state)
    ensures var a, b := r.state.server.value, s.server.value; a.host == b.host && a.port == b.port && a.tls == b.tls
    ensures r.error.None? ==> env.start.None? && Harmless(s, Flatten(s.registrations, env.behaviour))
    ensures r.error.None? && r.state.methods.Some? ==> env.commandableService.Success?
    ensures r.error.None? ==>
      r.state.server.value.started
      && r.state.server.value.services == s.server.value.services + StartedServices(s, env, r.state.methods.Some?)
  {
    var p := ApplyEffects(s, Flatten(s.registrations, env.behaviour));
    if p.error.Some? then p
    else
      var q := RegisterCommandableServiceSpec(p.state, env.commandableService);
      if q.error.Some? then q
      else if env.start.Some? then Applied(q.state, env.start)
      else Applied(q.state.(server := Some(q.state.server.value.(started := true))), None)
  }

  /** Creates the server, its credentials, binds it, registers with discovery, then starts. */
  function ListenSpec(s: EndpointState, c: Connection, env: OpenEnv, tls: Option<TlsMaterial>): (r: Applied)
    ensures r.state.registrations == s.registrations && r.state.uri == s.uri && Opened(r.state)
    ensures TablesAgree(s) ==> TablesAgree(r.state)
    ensures var a := r.state.server.value; a.host == c.host && a.port == c.port && a.tls == tls
    ensures r.error.None? ==> env.start.None? && Harmless(r.state, Flatten(s.registrations, env.behaviour))
    ensures r.error.None? && r.state.methods.Some? ==> env.commandableService.Success?
    ensures r.error.None? ==>
      r.state.server.value.started
      && r.state.server.value.services == StartedServices(s, env, r.state.methods.Some?)
  {
    var s1 := s.(server := Some(Server(c.host, c.port, tls, [], false)));
    var credentials := if tls.Some? then env.createSsl(tls.value) else None;
    if credentials.Some? then Applied(s1, credentials)
    else
      var bound := env.bind(c.host, c.port, tls.Some?);
      if bound.Some? then Applied(s1, bound)
      else if env.discovery.Some? then Applied(s1, env.discovery)
      else StartSpec(s1, env)
  }

  /** The body of the `try` in `open`: read the TLS files when secure, then listen. */
  function TryOpenSpec(s: EndpointState, c: Connection, env: OpenEnv): (r: Applied)
    ensures r.state.registrations == s.registrations && r.state.uri == s.uri
    ensures TablesAgree(s) ==> TablesAgree(r.state)
    ensures r.error.None? ==> Opened(r.state) && r.state.server.value.started
    ensures r.error.None? ==> Secure(c) == r.state.server.value.tls.Some?
    ensures r.error.None? && Secure(c) ==> ReadTls(env.files, c) == Success(r.state.server.value.tls.value)
  {
    if Secure(c) then
      match ReadTls(env.files, c)
      case Failure(f) => Applied(s, Some(f))
      case Success(t) => ListenSpec(s, c, env, Some(t))
    else ListenSpec(s, c, env, None)
  }

  /**
   * `open`: a no-op while open; a resolver error propagates as it is; once the
   * connection is known its URI is kept, and any failure after that closes the
   * server again and is wrapped in CANNOT_CONNECT with the URI as detail.
   * Commandable methods registered before the failure stay registered.
   */
  function OpenSpec(s: EndpointState, env: OpenEnv, correlationId: Option<string>): (r: Applied)
    ensures Opened(s) ==> r == Applied(s, None)
    ensures r.state.registrations == s.registrations
    ensures TablesAgree(s) ==> TablesAgree(r.state)
    ensures r.error.None? <==> Opened(r.state)
    ensures !Opened(s) && env.resolved.Failure? ==> r == Applied(s, Some(env.resolved.error))
    ensures !Opened(s) && env.resolved.Success? && env.resolved.value.Some? ==>
      var c := env.resolved.value.value;
      && r.state.uri == c.uri
      && (r.error.Some? ==>
            r.error.value.code == "CANNOT_CONNECT" && r.error.value.category == NoResponse
            && r.error.value.details == map["url" := c.uri] && r.error.value.cause.Some?)
      && (r.error.None? ==>
            r.state.server.value.started && r.state.server.value.host == c.host
            && r.state.server.value.port == c.port && (r.state.server.value.tls.Some? <==> Secure(c)))
  {
    if Opened(s) then Applied(s, None)
    else match env.resolved
      case Failure(f) => Applied(s, Some(f))
      case Success(None) => Applied(s, Some(NullReference))
      case Success(Some(c)) =>
        var t := TryOpenSpec(s.(uri := c.uri), c, env);
        if t.error.None? then t
        else Applied(t.state.(server := None), Some(CannotConnect(correlationId, c.uri, t.error.value)))
  }

  /**
   * A successful open of a closed endpoint ran every registration without a
   * throw and serves exactly the services they add, in registration order,
   * followed by the commandable "invoke" service when commandable methods
   * exist.
   */
  lemma OpenServesRegistrations(s: EndpointState, env: OpenEnv, correlationId: Option<string>)
    requires !Opened(s)
    requires OpenSpec(s, env, correlationId).error.None?
    ensures var r := OpenSpec(s, env, correlationId);
      && Harmless(r.state, Flatten(s.registrations, env.behaviour))
      && (r.state.methods.Some? ==> env.commandableService.Success?)
      && r.state.server.value.services == StartedServices(s, env, r.state.methods.Some?)
  {
    if env.resolved.Failure? || env.resolved.value.None? {
      assert false;
    }
    var c := env.resolved.value.value;
    var s1 := s.(uri := c.uri);
    assert s1.registrations == s.registrations;
    if Secure(c) {
      assert OpenSpec(s, env, correlationId) == ListenSpec(s1, c, env, Some(ReadTls(env.files, c).value));
    } else {
      assert OpenSpec(s, env, correlationId) == ListenSpec(s1, c, env, None);
    }
  }

  /**
   * `close`: clears the URI and both commandable tables whenever a server
   * exists; the server is dropped only when its shutdown succeeds, and a
   * shutdown error is rethrown.
   */
  function CloseSpec(s: EndpointState, shutdown: Option<Fault>): (r: Applied)
    ensures !Opened(s) ==> r == Applied(s, None)
    ensures r.state.registrations == s.registrations
    ensures TablesAgree(r.state) || r.state == s
    ensures Opened(s) ==> r.state.uri.None? && r.state.methods.None? && r.state.schemas.None?
    ensures Opened(s) ==> r.error == shutdown && (Opened(r.state) <==> shutdown.Some?)
  {
    if !Opened(s) then Applied(s, None)
    else
      var cleared := s.(uri := None, methods := None, schemas := None);
      if shutdown.Some? then Applied(cleared, shutdown) else Applied(cleared.(server := None), None)
  }

  /** After a successful close, opening builds a new server and the old commandable table is gone. */
  lemma CloseThenOpen(s: EndpointState, env: OpenEnv, correlationId: Option<string>)
    requires Opened(s)
    requires env.resolved.Success? && env.resolved.value.Some?
    ensures var closed := CloseSpec(s, None).state;
      && !Opened(closed)
      && (var r := OpenSpec(closed, env, correlationId);
          r.error.None? && r.state.methods.Some? ==>
            exists i :: 0 <= i < |Flatten(s.registrations, env.behaviour)| && Flatten(s.registrations, env.behaviour)[i].AddCommandable?)
  {
    var closed := CloseSpec(s, None).state;
    var r := OpenSpec(closed, env, correlationId);
    if r.error.None? && r.state.methods.Some? {
      var c := env.resolved.value.value;
      var s1 := closed.(uri := c.uri);
      var fl := Flatten(s.registrations, env.behaviour);
      var s2 := s1.(server := Some(Server(c.host, c.port, r.state.server.value.tls, [], false)));
      assert r.state.methods == ApplyEffects(s2, fl).state.methods;
      NoCommandableKeepsTable(s2, fl);
    }
  }

  /** Effects that register no commandable method leave a missing table missing. */
  lemma {:induction false} NoCommandableKeepsTable(s: EndpointState, effects: seq<Effect>)
    requires s.methods.None?
    requires ApplyEffects(s, effects).state.methods.Some?
    ensures exists i :: 0 <= i < |effects| && effects[i].AddCommandable?
    decreases |effects|
  {
    if effects == [] {
    } else if effects[0].AddCommandable? {
      assert effects[0].AddCommandable?;
    } else {
      match effects[0]
      case AddService(b) =>
        var t := AddServiceTo(s, b);
        NoCommandableKeepsTable(t.value, effects[1..]);
        var i :| 0 <= i < |effects[1..]| && effects[1..][i].AddCommandable?;
        assert effects[i + 1].AddCommandable?;
      case Raise(f) =>
    }
  }

  // ---------------------------------------------------------------------------
  // Dispatching "invoke"

  /** A response carrying an error and no result. */
  function ErrorResponse(f: Fault): InvokeResponse
  {
    InvokeResponse(Some(Describe(f)), true, None)
  }

  /** `!argsEmpty && argsJson ? Parameters.fromJson(argsJson) : new Parameters()`. */
  function DecodeArgs(req: InvokeRequest, codec: JsonCodec): (r: Result<Parameters, Fault>)
    ensures req.argsEmpty || req.argsJson.None? || req.argsJson == Some("") ==> r == Success(map[])
  {
    if !req.argsEmpty && req.argsJson.Some? && req.argsJson.value != "" then codec.parametersFromJson(req.argsJson.value)
    else Success(map[])
  }

  /**
   * `invokeCommandableMethod`: looks the method up in the dispatch table, decodes
   * the arguments, runs the action and packs its result or error into a response.
   * `run` stands for awaiting the action with the correlation id and arguments.
   */
  function InvokeCommandableMethod(s: EndpointState, req: InvokeRequest, codec: JsonCodec,
                                   run: (Action, Option<string>, Parameters) -> Outcome): (resp: InvokeResponse)
    ensures WellFormedResponse(resp)
    ensures Entry(s.methods, req.methodName).None? ==> resp == ErrorResponse(MethodNotFound(req.correlationId, req.methodName))
    ensures resp.error.None? ==>
      Entry(s.methods, req.methodName).Some? && DecodeArgs(req, codec).Success?
      && run(Entry(s.methods, req.methodName).value, req.correlationId, DecodeArgs(req, codec).value).Returned?
    ensures DecodeArgs(req, codec).Failure? && Entry(s.methods, req.methodName).Some? ==>
      resp == ErrorResponse(MethodFailed(req.correlationId, req.methodName, DecodeArgs(req, codec).error))
  {
    var name := req.methodName;
    var action := Entry(s.methods, name);
    if action.None? then ErrorResponse(MethodNotFound(req.correlationId, name))
    else match DecodeArgs(req, codec)
      case Failure(f) => ErrorResponse(MethodFailed(req.correlationId, name, f))
      case Success(args) =>
        if s.schemas.None? then ErrorResponse(MethodFailed(req.correlationId, name, NullReference))
        else match run(action.value, req.correlationId, args)
          case Returned(v) => InvokeResponse(None, v == JNull, if v == JNull then None else Some(codec.stringify(v)))
          case Threw(f) => ErrorResponse(f)
  }

  /**
   * With consistent tables, a registered method is always reached: the
   * action runs with the decoded arguments, a value comes back as its JSON
   * text (null as an empty result) and an error comes back described.
   */
  lemma InvokeReachesAction(s: EndpointState, req: InvokeRequest, codec: JsonCodec,
                            run: (Action, Option<string>, Parameters) -> Outcome)
    requires TablesAgree(s)
    requires Entry(s.methods, req.methodName).Some? && DecodeArgs(req, codec).Success?
    ensures var resp := InvokeCommandableMethod(s, req, codec, run);
      match run(Entry(s.methods, req.methodName).value, req.correlationId, DecodeArgs(req, codec).value)
      case Returned(v) => resp.error.None? && (resp.resultEmpty <==> v == JNull)
        && (v != JNull ==> resp.resultJson == Some(codec.stringify(v)))
      case Threw(f) => resp == ErrorResponse(f)
  {
  }

  // ---------------------------------------------------------------------------
  // The endpoint object

  class GrpcEndpoint {
    var server: Option<Server>
    var uri: Option<string>
    var registrations: seq<RegistrationId>
    var methods: Option<map<string, Action>>
    var schemas: Option<map<string, Option<Schema>>>

    function State(): EndpointState
      reads this
    {
      EndpointState(server, uri, registrations, methods, schemas)
    }

    constructor ()
      ensures State() == Initial
    {
      server, uri, registrations, methods, schemas := None, None, [], None, None;
    }

    /** `isOpen`. */
    predicate IsOpen()
      reads this
    {
      server.Some?
    }

    /** `register`: appends a registration (the same object may be appended twice). */
    method Register(registration: RegistrationId)
      modifies this
      ensures State() == old(State()).(registrations := old(registrations) + [registration])
    {
      registrations := registrations + [registration];
    }

    /** `unregister`: removes every occurrence of the registration. */
    method Unregister(registration: RegistrationId)
      modifies this
      ensures State() == old(State()).(registrations := Without(old(registrations), registration))
    {
      registrations := Without(registrations, registration);
    }

    /** `registerService`. */
    method RegisterService(b: Binding) returns (error: Option<Fault>)
      modifies this
      ensures match AddServiceTo(old(State()), b)
        case Failure(f) => State() == old(State()) && error == Some(f)
        case Success(t) => State() == t && error.None?
    {
      if server.None? {
        return Some(NullReference);
      }
      server := Some(server.value.(services := server.value.services + [b]));
      return None;
    }

    /** `registerCommadableMethod`. */
    method RegisterCommadableMethod(name: string, schema: Option<Schema>, action: Action)
      modifies this
      ensures State() == RegisterCommadable(old(State()), name, schema, action)
    {
      methods := Some((if methods.Some? then methods.value else map[])[name := action]);
      schemas := Some((if schemas.Some? then schemas.value else map[])[name := schema]);
    }

    /** One registration's `register()`: its calls back into the endpoint, in order, until one throws. */
    method RunRegistration(effects: seq<Effect>) returns (error: Option<Fault>)
      modifies this
      ensures Applied(State(), error) == ApplyEffects(old(State()), effects)
    {
      var j := 0;
      while j < |effects|
        invariant 0 <= j <= |effects|
        invariant ApplyEffects(old(State()), effects) == ApplyEffects(State(), effects[j..])
        decreases |effects| - j
      {
        assert effects[j..][0] == effects[j] && effects[j..][1..] == effects[j + 1..];
        match effects[j] {
          case AddService(b) =>
            error := RegisterService(b);
            if error.Some? {
              return;
            }
          case AddCommandable(name, schema, action) =>
            RegisterCommadableMethod(name, schema, action);
          case Raise(f) =>
            return Some(f);
        }
        j := j + 1;
      }
      return None;
    }

    /** `performRegistrations` without its final step: every registration registers, in order. */
    method PerformRegistrations(behaviour: RegistrationId -> seq<Effect>) returns (error: Option<Fault>)
      modifies this
      ensures Applied(State(), error) == ApplyEffects(old(State()), Flatten(old(registrations), behaviour))
    {
      var regs := registrations;
      var i := 0;
      while i < |regs|
        invariant 0 <= i <= |regs| && registrations == regs
        invariant ApplyEffects(old(State()), Flatten(regs, behaviour)) == ApplyEffects(State(), Flatten(regs[i..], behaviour))
      {
        assert regs[i..][0] == regs[i] && regs[i..][1..] == regs[i + 1..];
        ApplyConcat(State(), behaviour(regs[i]), Flatten(regs[i + 1..], behaviour));
        error := RunRegistration(behaviour(regs[i]));
        if error.Some? {
          return;
        }
        i := i + 1;
      }
      return None;
    }

    /** `registerCommandableService`. */
    method RegisterCommandableService(service: Result<PackageObject, Fault>) returns (error: Option<Fault>)
      modifies this
      ensures Applied(State(), error) == RegisterCommandableServiceSpec(old(State()), service)
    {
      if methods.None? {
        return None;
      }
      if service.Failure? {
        return Some(service.error);
      }
      error := RegisterService(CommandableBinding(service.value));
    }

    /** The `try` body of `open`. */
    method TryOpen(c: Connection, env: OpenEnv) returns (error: Option<Fault>)
      modifies this
      ensures Applied(State(), error) == TryOpenSpec(old(State()), c, env)
    {
      var tls: Option<TlsMaterial> := None;
      if Secure(c) {
        var key := ReadFile(env.files, c.sslKeyFile);
        if key.Failure? {
          return Some(key.error);
        }
        var crt := ReadFile(env.files, c.sslCrtFile);
        if crt.Failure? {
          return Some(crt.error);
        }
        var ca: seq<string> := [];
        if c.sslCaFile.Some? {
          var caText := ReadFile(env.files, c.sslCaFile);
          if caText.Failure? {
            return Some(caText.error);
          }
          ca := CaBundle.SplitCaBundle(caText.value);
        }
        tls := Some(TlsMaterial(key.value, crt.value, ca));
        assert ReadTls(env.files, c) == Success(tls.value);
      }
      ghost var s0 := State();
      server := Some(Server(c.host, c.port, tls, [], false));
      var credentials := if tls.Some? then env.createSsl(tls.value) else None;
      if credentials.Some? {
        return credentials;
      }
      error := env.bind(c.host, c.port, tls.Some?);
      if error.Some? {
        return;
      }
      if env.discovery.Some? {
        return env.discovery;
      }
      assert ListenSpec(s0, c, env, tls) == StartSpec(State(), env);
      error := PerformRegistrations(env.behaviour);
      if error.Some? {
        return;
      }
      error := RegisterCommandableService(env.commandableService);
      if error.Some? {
        return;
      }
      if env.start.Some? {
        return env.start;
      }
      server := Some(server.value.(started := true));
    }

    /** `open`. */
    method Open(correlationId: Option<string>, env: OpenEnv) returns (error: Option<Fault>)
      modifies this
      ensures Applied(State(), error) == OpenSpec(old(State()), env, correlationId)
    {
      if server.Some? {
        return None;
      }
      if env.resolved.Failure? {
        return Some(env.resolved.error);
      }
      if env.resolved.value.None? {
        return Some(NullReference);
      }
      var c := env.resolved.value.value;
      uri := c.uri;
      error := TryOpen(c, env);
      if error.Some? {
        server := None;
        error := Some(CannotConnect(correlationId, c.uri, error.value));
      }
    }

    /** `close`; `shutdown` is the outcome of the server's shutdown. */
    method Close(correlationId: Option<string>, shutdown: Option<Fault>) returns (error: Option<Fault>)
      modifies this
      ensures Applied(State(), error) == CloseSpec(old(State()), shutdown)
    {
      if server.None? {
        return None;
      }
      uri, methods, schemas := None, None, None;
      if shutdown.Some? {
        return shutdown;
      }
      server := None;
      return None;
    }
  }
}
