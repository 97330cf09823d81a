/**
 * The service shell: a component that owns (or shares) an endpoint, collects
 * method handlers into an implementation map when the endpoint asks it to
 * register, finds its service definition (given, or loaded from a proto file
 * and looked up by its dotted name) and adds both to the endpoint's server.
 *
 * What a concrete service's `register()` does is a script of calls into the
 * shell (`ShellCall`). `RegistrationEffects` is what registering a shell does
 * to its endpoint, as the endpoint's `Effect`s; the method `RegisterService`
 * is proved to do exactly that to a real endpoint object.
 */
module Service {
  import opened Wrappers
  import opened Wire
  import opened Handlers
  import opened Pipeline
  import opened Endpoint

  // ---------------------------------------------------------------------------
  // Finding a service in a loaded package

  /** `name.split(".")`: the pieces between dots, empty pieces included. */
  function SplitName(s: string): (parts: seq<string>)
    ensures |parts| >= 1
    ensures forall i :: 0 <= i < |parts| ==> '.' !in parts[i]
    decreases |s|
  {
    if s == [] then [""]
    else
      var rest := SplitName(s[1..]);
      if s[0] == '.' then [""] + rest else [[s[0]] + rest[0]] + rest[1..]
  }

  /** `parts.join(".")`. */
  function JoinName(parts: seq<string>): string
    requires |parts| >= 1
    decreases |parts|
  {
    if |parts| == 1 then parts[0] else parts[0] + "." + JoinName(parts[1..])
  }

  /** Splitting loses nothing: joining the pieces gives the name back. */
  lemma {:induction false} JoinSplit(s: string)
    ensures JoinName(SplitName(s)) == s
    decreases |s|
  {
    if s != [] {
      var rest := SplitName(s[1..]);
      JoinSplit(s[1..]);
      assert s == [s[0]] + s[1..];
      if s[0] == '.' {
        assert ([""] + rest)[1..] == rest;
      } else {
        var p := [[s[0]] + rest[0]] + rest[1..];
        assert p[1..] == rest[1..];
        if |rest| > 1 {
          assert JoinName(rest) == rest[0] + "." + JoinName(rest[1..]);
        }
      }
    }
  }

  /** A dot-free prefix stays in the first piece. */
  lemma {:induction false} SplitDotFreePrefix(x: string, tail: string)
    requires '.' !in x
    ensures SplitName(x + tail) == [x + SplitName(tail)[0]] + SplitName(tail)[1..]
    decreases |x|
  {
    if x != [] {
      var p := SplitName(tail);
      assert (x + tail)[0] == x[0] && (x + tail)[1..] == x[1..] + tail;
      assert x[0] != '.';
      SplitDotFreePrefix(x[1..], tail);
      var rest := SplitName(x[1..] + tail);
      assert rest[0] == x[1..] + p[0] && rest[1..] == p[1..];
      assert [x[0]] + rest[0] == x + p[0];
    } else {
      var p := SplitName(tail);
      assert x + tail == tail && x + p[0] == p[0];
      assert p == [p[0]] + p[1..];
    }
  }

  /** Joining dot-free pieces and splitting again gives the same pieces. */
  lemma {:induction false} SplitJoin(parts: seq<string>)
    requires |parts| >= 1
    requires forall i :: 0 <= i < |parts| ==> '.' !in parts[i]
    ensures SplitName(JoinName(parts)) == parts
    decreases |parts|
  {
    if |parts| == 1 {
      SplitDotFreePrefix(parts[0], "");
      assert parts[0] + "" == parts[0];
    } else {
      var tail := "." + JoinName(parts[1..]);
      SplitJoin(parts[1..]);
      SplitDotFreePrefix(parts[0], tail);
      assert tail[0] == '.' && tail[1..] == JoinName(parts[1..]);
      assert SplitName(tail) == [""] + SplitName(tail[1..]);
      assert JoinName(parts) == parts[0] + tail;
      assert parts[0] + "" == parts[0];
      assert parts == [parts[0]] + parts[1..];
    }
  }

  /** `packageObject[name]`. */
  function Member(p: PackageObject, name: string): Option<PackageObject>
  {
    if name in p.members then Some(p.members[name]) else None
  }

  /** Follows a path of member names; a missing member ends the walk with nothing. */
  function LookupPath(p: Option<PackageObject>, names: seq<string>): Option<PackageObject>
    decreases |names|
  {
    if names == [] || p.None? then p else LookupPath(Member(p.value, names[0]), names[1..])
  }

  /** Walking a path in two legs is walking it at once. */
  lemma {:induction false} LookupConcat(p: Option<PackageObject>, a: seq<string>, b: seq<string>)
    ensures LookupPath(p, a + b) == LookupPath(LookupPath(p, a), b)
    decreases |a|
  {
    if a == [] {
      assert a + b == b;
    } else if p.None? {
      NothingFoundInNothing(b);
    } else {
      assert (a + b)[0] == a[0] && (a + b)[1..] == a[1..] + b;
      LookupConcat(Member(p.value, a[0]), a[1..], b);
    }
  }

  /** Nothing is found below a missing member. */
  lemma {:induction false} NothingFoundInNothing(names: seq<string>)
    ensures LookupPath(None, names) == None
  {
  }

  /** `getServiceByName` on its inputs: no package or no name gives the package back. */
  function Lookup(p: Option<PackageObject>, serviceName: Option<string>): Option<PackageObject>
  {
    if p.None? || serviceName.None? then p else LookupPath(p, SplitName(serviceName.value))
  }

  /** `getServiceByName`. */
  method GetServiceByName(packageObject: Option<PackageObject>, serviceName: Option<string>) returns (r: Option<PackageObject>)
    ensures r == Lookup(packageObject, serviceName)
  {
    if packageObject.None? || serviceName.None? {
      return packageObject;
    }
    var names := SplitName(serviceName.value);
    r := packageObject;
    var i := 0;
    while i < |names|
      invariant 0 <= i <= |names| && r.Some?
      invariant LookupPath(packageObject, names) == LookupPath(r, names[i..])
    {
      assert names[i..][0] == names[i] && names[i..][1..] == names[i + 1..];
      r := Member(r.value, names[i]);
      if r.None? {
        NothingFoundInNothing(names[i + 1..]);
        return;
      }
      i := i + 1;
    }
  }

  /** A service nested under dot-free member names is found by the dotted name of its path. */
  lemma FindsByDottedPath(p: PackageObject, path: seq<string>)
    requires |path| >= 1
    requires forall i :: 0 <= i < |path| ==> '.' !in path[i]
    ensures Lookup(Some(p), Some(JoinName(path))) == LookupPath(Some(p), path)
  {
    SplitJoin(path);
  }

  // ---------------------------------------------------------------------------
  // What a service's register() does

  /** A call a concrete service's `register()` makes into its shell. */
  datatype ShellCall =
    | RegisterMethodCall(name: string, schema: Option<Schema>, action: Handler)
    | RegisterMethodWithAuthCall(name: string, schema: Option<Schema>, authorize: Interceptor, action: Handler)
    | RegisterInterceptorCall(interceptor: Interceptor)
    | RegisterCommadableCall(name: string, schema: Option<Schema>, commandAction: Action)
    | ThrowCall(fault: Fault)

  /** The shell's own registration state: the implementation map and the interceptors. */
  datatype Shell = Shell(implementation: map<string, MethodImpl>, interceptors: seq<Interceptor>)

  /** The shell state after a script, the calls it made into the endpoint, and the error that stopped it. */
  datatype ScriptRun = ScriptRun(shell: Shell, effects: seq<Effect>, error: Option<Fault>)

  /**
   * The shell-only calls (the endpoint being set): methods get the interceptors
   * registered so far. A method registered with authorization gets the
   * corrected `AuthorizedMethodHandler`; the wrapper the code builds is
   * `CycleChain`.
   */
  function StepShell(sh: Shell, c: ShellCall): Shell
  {
    match c
    case RegisterMethodCall(name, schema, action) =>
      sh.(implementation := sh.implementation[name := Pipeline(MethodHandler(sh.interceptors, schema, action))])
    case RegisterMethodWithAuthCall(name, schema, authorize, action) =>
      sh.(implementation := sh.implementation[name := Pipeline(AuthorizedMethodHandler(sh.interceptors, schema, authorize, action))])
    case RegisterInterceptorCall(i) => sh.(interceptors := sh.interceptors + [i])
    case RegisterCommadableCall(_, _, _) => sh
    case ThrowCall(_) => sh
  }

  /** Runs a `register()` script on a shell whose endpoint is set. */
  function RunScript(sh: Shell, script: seq<ShellCall>): (r: ScriptRun)
    ensures forall i :: 0 <= i < |r.effects| ==> r.effects[i].AddCommandable?
    ensures r.error.None? ==> forall i :: 0 <= i < |script| ==> !script[i].ThrowCall?
    decreases |script|
  {
    if script == [] then ScriptRun(sh, [], None)
    else match script[0]
      case ThrowCall(f) => ScriptRun(sh, [], Some(f))
      case RegisterCommadableCall(name, schema, action) =>
        var r := RunScript(sh, script[1..]);
        ScriptRun(r.shell, [AddCommandable(name, schema, action)] + r.effects, r.error)
      case _ => RunScript(StepShell(sh, script[0]), script[1..])
  }

  /** The endpoint after a call of `register()` that does not throw: only a commandable method reaches it. */
  function AfterCall(s: EndpointState, c: ShellCall): EndpointState
  {
    if c.RegisterCommadableCall? then RegisterCommadable(s, c.name, c.schema, c.commandAction) else s
  }

  /**
   * A script whose first call does not throw ends as the rest of it does,
   * run on the shell that call leaves, and does to the endpoint what the
   * rest does after that call.
   */
  lemma RunScriptHead(sh: Shell, script: seq<ShellCall>, s: EndpointState)
    requires script != [] && !script[0].ThrowCall?
    ensures var r := RunScript(sh, script);
      var n := RunScript(StepShell(sh, script[0]), script[1..]);
      && r.error == n.error && r.shell == n.shell
      && ApplyEffects(s, SelfRegistrationEffects(sh, script))
        == ApplyEffects(AfterCall(s, script[0]), SelfRegistrationEffects(StepShell(sh, script[0]), script[1..]))
  {
    var c := script[0];
    if c.RegisterCommadableCall? {
      var e := AddCommandable(c.name, c.schema, c.commandAction);
      var n := RunScript(sh, script[1..]);
      var tail := SelfRegistrationEffects(sh, script[1..]);
      if n.error.Some? {
        assert ([e] + n.effects) + [Raise(n.error.value)] == [e] + tail;
      }
      assert SelfRegistrationEffects(sh, script) == [e] + tail;
      assert ([e] + tail)[1..] == tail;
    }
  }

  /** The service definition `registerService` adds: given, or loaded from the proto file, then looked up by name. */
  function LoadedService(service: Option<PackageObject>, protoPath: Option<string>, serviceName: Option<string>,
                         proto: Result<PackageObject, Fault>): (r: Result<Option<PackageObject>, Fault>)
    ensures r.Failure? <==> service.None? && protoPath.Some? && proto.Failure?
    ensures r.Failure? ==> r.error == proto.error
    ensures service.Some? ==> r == Success(Lookup(service, serviceName))
    ensures service.None? && protoPath.None? ==> r == Success(None)
  {
    if service.None? && protoPath.Some? then
      match proto
      case Failure(f) => Failure(f)
      case Success(p) => Success(Lookup(Some(p), serviceName))
    else Success(Lookup(service, serviceName))
  }

  /**
   * What registering a shell does to its endpoint: the implementation starts
   * empty, `register()` runs, and the service found is added together with
   * the implementation collected.
   */
  function RegistrationEffects(service: Option<PackageObject>, protoPath: Option<string>, serviceName: Option<string>,
                               script: seq<ShellCall>, proto: Result<PackageObject, Fault>): seq<Effect>
  {
    var r := RunScript(Shell(map[], []), script);
    if r.error.Some? then r.effects + [Raise(r.error.value)]
    else match LoadedService(service, protoPath, serviceName, proto)
      case Failure(f) => r.effects + [Raise(f)]
      case Success(None) => r.effects
      case Success(Some(svc)) => r.effects + [AddService(Binding(svc, r.shell.implementation))]
  }

  /** What registering the shell object itself does: only `register()` runs. */
  function SelfRegistrationEffects(sh: Shell, script: seq<ShellCall>): seq<Effect>
  {
    var r := RunScript(sh, script);
    if r.error.Some? then r.effects + [Raise(r.error.value)] else r.effects
  }

  /** Commandable registrations add no service. */
  lemma {:induction false} CommandableAddsNoService(effects: seq<Effect>)
    requires forall i :: 0 <= i < |effects| ==> effects[i].AddCommandable?
    ensures Bindings(effects) == []
  {
    if effects != [] {
      CommandableAddsNoService(effects[1..]);
    }
  }

  /**
   * Registered through its registration callback, a shell adds exactly one
   * service, its definition bound to the implementation its `register()`
   * collected, when `register()` does not throw and the definition is loaded
   * and found; otherwise it adds none.
   */
  lemma RegistrationServesDefinition(service: Option<PackageObject>, protoPath: Option<string>, serviceName: Option<string>,
                                     script: seq<ShellCall>, proto: Result<PackageObject, Fault>)
    ensures var r := RunScript(Shell(map[], []), script);
      var found := LoadedService(service, protoPath, serviceName, proto);
      Bindings(RegistrationEffects(service, protoPath, serviceName, script, proto))
        == if r.error.None? && found.Success? && found.value.Some? then [Binding(found.value.value, r.shell.implementation)] else []
  {
    var r := RunScript(Shell(map[], []), script);
    var found := LoadedService(service, protoPath, serviceName, proto);
    CommandableAddsNoService(r.effects);
    if r.error.Some? {
      BindingsConcat(r.effects, [Raise(r.error.value)]);
    } else if found.Failure? {
      BindingsConcat(r.effects, [Raise(found.error)]);
    } else if found.value.Some? {
      BindingsConcat(r.effects, [AddService(Binding(found.value.value, r.shell.implementation))]);
    }
  }

  /**
   * A registration whose `register()` throws, or whose proto file fails to
   * load, ends with that error, and running it on an endpoint throws exactly
   * that error, after the commandable methods registered before it.
   */
  lemma RegistrationThrowsOnFailure(s: EndpointState, service: Option<PackageObject>, protoPath: Option<string>,
                                    serviceName: Option<string>, script: seq<ShellCall>, proto: Result<PackageObject, Fault>)
    ensures var r := RunScript(Shell(map[], []), script);
      var found := LoadedService(service, protoPath, serviceName, proto);
      var effects := RegistrationEffects(service, protoPath, serviceName, script, proto);
      && (r.error.Some? ==>
            effects[|r.effects|] == Raise(r.error.value) && ApplyEffects(s, effects).error == r.error)
      && (r.error.None? && found.Failure? ==>
            effects[|r.effects|] == Raise(found.error) && ApplyEffects(s, effects).error == Some(found.error))
  {
    var r := RunScript(Shell(map[], []), script);
    var found := LoadedService(service, protoPath, serviceName, proto);
    var f := if r.error.Some? then r.error.value else if found.Failure? then found.error else NullReference;
    if r.error.Some? || found.Failure? {
      assert Harmless(s, r.effects);
      ApplyConcat(s, r.effects, [Raise(f)]);
    }
  }

  /** The services of two effect sequences, one after the other. */
  lemma {:induction false} BindingsConcat(a: seq<Effect>, b: seq<Effect>)
    ensures Bindings(a + b) == Bindings(a) + Bindings(b)
  {
    if a == [] {
      assert a + b == b;
    } else {
      assert (a + b)[0] == a[0] && (a + b)[1..] == a[1..] + b;
      BindingsConcat(a[1..], b);
    }
  }

  /**
   * Registered as itself (as `open` does when it creates the endpoint), a
   * shell adds no service at all, whatever its definition: its methods are
   * collected but never served.
   */
  lemma SelfRegistrationServesNothing(sh: Shell, script: seq<ShellCall>)
    ensures Bindings(SelfRegistrationEffects(sh, script)) == []
  {
    var r := RunScript(sh, script);
    CommandableAddsNoService(r.effects);
    if r.error.Some? {
      BindingsConcat(r.effects, [Raise(r.error.value)]);
    }
  }

  /**
   * Opening an endpoint whose one registration is the shell's registration
   * callback (as `open` does when it creates the endpoint, in the corrected
   * form): when the open succeeds, `register()` did not throw, the definition
   * was loaded, and the server serves that definition bound to the collected
   * implementation, when it was found, followed by the commandable service
   * when commandable methods were registered.
   */
  lemma OpenServesDefinition(x: RegistrationId, env: OpenEnv, correlationId: Option<string>,
                             service: Option<PackageObject>, protoPath: Option<string>, serviceName: Option<string>,
                             script: seq<ShellCall>, proto: Result<PackageObject, Fault>)
    requires env.behaviour(x) == RegistrationEffects(service, protoPath, serviceName, script, proto)
    requires OpenSpec(Initial.(registrations := [x]), env, correlationId).error.None?
    ensures var r := OpenSpec(Initial.(registrations := [x]), env, correlationId).state;
      var run := RunScript(Shell(map[], []), script);
      var found := LoadedService(service, protoPath, serviceName, proto);
      && run.error.None? && found.Success?
      && (r.methods.Some? ==> env.commandableService.Success?)
      && r.server.value.services
        == (if found.value.Some? then [Binding(found.value.value, run.shell.implementation)] else [])
          + (if r.methods.Some? then [CommandableBinding(env.commandableService.value)] else [])
  {
    var s0 := Initial.(registrations := [x]);
    var effects := RegistrationEffects(service, protoPath, serviceName, script, proto);
    OpenServesRegistrations(s0, env, correlationId);
    assert Flatten(s0.registrations, env.behaviour) == effects + [];
    assert effects + [] == effects;
    var run := RunScript(Shell(map[], []), script);
    var found := LoadedService(service, protoPath, serviceName, proto);
    RegistrationThrowsOnFailure(s0, service, protoPath, serviceName, script, proto);
    if run.error.Some? || found.Failure? {
      assert false;
    }
    RegistrationServesDefinition(service, protoPath, serviceName, script, proto);
  }

  /**
   * Opening an endpoint whose one registration is the shell object itself
   * (as `open` as written does when it creates the endpoint): when the open
   * succeeds, the server serves at most the commandable service, never the
   * shell's definition.
   */
  lemma OpenAsWrittenServesNoDefinition(x: RegistrationId, env: OpenEnv, correlationId: Option<string>,
                                        sh: Shell, script: seq<ShellCall>)
    requires env.behaviour(x) == SelfRegistrationEffects(sh, script)
    requires OpenSpec(Initial.(registrations := [x]), env, correlationId).error.None?
    ensures var r := OpenSpec(Initial.(registrations := [x]), env, correlationId).state;
      && (r.methods.Some? ==> env.commandableService.Success?)
      && r.server.value.services == if r.methods.Some? then [CommandableBinding(env.commandableService.value)] else []
  {
    var s0 := Initial.(registrations := [x]);
    OpenServesRegistrations(s0, env, correlationId);
    assert Flatten(s0.registrations, env.behaviour) == SelfRegistrationEffects(sh, script) + [];
    assert SelfRegistrationEffects(sh, script) + [] == SelfRegistrationEffects(sh, script);
    SelfRegistrationServesNothing(sh, script);
  }

  /** The error `close` throws when the service has no endpoint. */
  function NoEndpoint(correlationId: Option<string>): Fault
  {
    Fault(InvalidState, "NO_ENDPOINT", correlationId, "GRPC endpoint is missing", map[], None)
  }

  /** The first constructor argument: a service definition, a proto file path, or neither. */
  datatype ServiceOrPath = Definition(definition: PackageObject) | ProtoPath(path: string) | Neither

  class GrpcService {
    const service: Option<PackageObject>
    const protoPath: Option<string>
    const serviceName: Option<string>
    /** The registration callback object the shell hands to endpoints. */
    const registerable: RegistrationId
    /** The shell object itself, seen as a registration. */
    const self: RegistrationId
    var endpoint: GrpcEndpoint?
    var localEndpoint: bool
    var isOpen: bool
    var implementation: map<string, MethodImpl>
    var interceptors: seq<Interceptor>

    constructor (serviceOrPath: ServiceOrPath, serviceName: Option<string>, registerable: RegistrationId, self: RegistrationId)
      requires registerable != self
      ensures service == (if serviceOrPath.Definition? then Some(serviceOrPath.definition) else None)
      ensures protoPath == (if serviceOrPath.ProtoPath? then Some(serviceOrPath.path) else None)
      ensures this.serviceName == serviceName && this.registerable == registerable && this.self == self
      ensures endpoint == null && !isOpen && implementation == map[] && interceptors == []
    {
      this.service := if serviceOrPath.Definition? then Some(serviceOrPath.definition) else None;
      this.protoPath := if serviceOrPath.ProtoPath? then Some(serviceOrPath.path) else None;
      this.serviceName := serviceName;
      this.registerable := registerable;
      this.self := self;
      endpoint := null;
      localEndpoint := false;
      isOpen := false;
      implementation := map[];
      interceptors := [];
    }

    /** `setReferences`: uses the referenced endpoint or creates a local one, and registers the callback with it. */
    method SetReferences(found: GrpcEndpoint?)
      modifies this`endpoint, this`localEndpoint, found
      ensures endpoint != null
      ensures found != null ==>
        endpoint == found && !localEndpoint
        && found.State() == old(found.State()).(registrations := old(found.registrations) + [registerable])
      ensures found == null ==>
        fresh(endpoint) && localEndpoint
        && endpoint.State() == Initial.(registrations := [registerable])
    {
      if found == null {
        endpoint := new GrpcEndpoint();
        localEndpoint := true;
      } else {
        endpoint := found;
        localEndpoint := false;
      }
      endpoint.Register(registerable);
    }

    /** `unsetReferences`: removes the callback from the endpoint and forgets it. */
    method UnsetReferences()
      modifies this`endpoint, endpoint
      ensures endpoint == null
      ensures old(endpoint) != null ==>
        old(endpoint).State() == old(endpoint.State()).(registrations := Without(old(endpoint.registrations), registerable))
    {
      if endpoint != null {
        endpoint.Unregister(registerable);
        endpoint := null;
      }
    }

    /** `registerMethod`. */
    method RegisterMethod(name: string, schema: Option<Schema>, action: Handler)
      modifies this`implementation
      ensures Shell(implementation, interceptors) == StepShell(old(Shell(implementation, interceptors)), RegisterMethodCall(name, schema, action))
    {
      var wrapper := ApplyInterceptors(interceptors, ApplyValidation(schema, action));
      implementation := implementation[name := Pipeline(wrapper)];
    }

    /** `registerMethodWithAuth`, with the authorizer's `next` bound to the validated action. */
    method RegisterMethodWithAuth(name: string, schema: Option<Schema>, authorize: Interceptor, action: Handler)
      modifies this`implementation
      ensures Shell(implementation, interceptors)
        == StepShell(old(Shell(implementation, interceptors)), RegisterMethodWithAuthCall(name, schema, authorize, action))
    {
      var wrapper := ApplyInterceptors(interceptors, Authorized(authorize, ApplyValidation(schema, action)));
      implementation := implementation[name := Pipeline(wrapper)];
    }

    /** `registerInterceptor`: ignored while there is no endpoint. */
    method RegisterInterceptor(interceptor: Interceptor)
      modifies this`interceptors
      ensures endpoint == null ==> interceptors == old(interceptors)
      ensures endpoint != null ==>
        Shell(implementation, interceptors)
        == StepShell(old(Shell(implementation, interceptors)), RegisterInterceptorCall(interceptor))
    {
      if endpoint == null {
        return;
      }
      interceptors := interceptors + [interceptor];
    }

    /**
     * The registration callback (`registerService`): resets the shell, runs
     * `register()`, finds the service and adds it to the endpoint. `script` is
     * what `register()` does; `proto` is what loading the proto file gives.
     * The endpoint is set whenever the endpoint it is registered with calls it.
     */
    method RegisterService(script: seq<ShellCall>, proto: Result<PackageObject, Fault>) returns (error: Option<Fault>)
      requires endpoint != null
      modifies this`implementation, this`interceptors, endpoint
      ensures Applied(endpoint.State(), error)
        == ApplyEffects(old(endpoint.State()), RegistrationEffects(service, protoPath, serviceName, script, proto))
      ensures error.None? ==> Shell(implementation, interceptors) == RunScript(Shell(map[], []), script).shell
    {
      implementation, interceptors := map[], [];
      ghost var e0 := endpoint.State();
      ghost var r := RunScript(Shell(map[], []), script);
      error := RunRegister(script);
      if error.Some? {
        return;
      }
      var found: Option<PackageObject>;
      if service.None? && protoPath.Some? {
        if proto.Failure? {
          ApplyConcat(e0, r.effects, [Raise(proto.error)]);
          return Some(proto.error);
        }
        found := GetServiceByName(Some(proto.value), serviceName);
      } else {
        found := GetServiceByName(service, serviceName);
      }
      if found.Some? {
        ApplyConcat(e0, r.effects, [AddService(Binding(found.value, implementation))]);
        error := endpoint.RegisterService(Binding(found.value, implementation));
      }
    }

    /** Runs `register()`: each call in turn, until one throws. */
    method RunRegister(script: seq<ShellCall>) returns (error: Option<Fault>)
      requires endpoint != null
      modifies this`implementation, this`interceptors, endpoint
      ensures var r := RunScript(old(Shell(implementation, interceptors)), script);
        && error == r.error
        && Applied(endpoint.State(), error)
          == ApplyEffects(old(endpoint.State()), SelfRegistrationEffects(old(Shell(implementation, interceptors)), script))
        && (error.None? ==> Shell(implementation, interceptors) == r.shell)
      decreases |script|
    {
      if script == [] {
        return None;
      }
      if script[0].ThrowCall? {
        assert [] + [Raise(script[0].fault)] == [Raise(script[0].fault)];
        return Some(script[0].fault);
      }
      RunScriptHead(Shell(implementation, interceptors), script, endpoint.State());
      Perform(script[0]);
      error := RunRegister(script[1..]);
    }

    /** One call of `register()` into the shell or, for a commandable method, into the endpoint. */
    method Perform(c: ShellCall)
      requires endpoint != null && !c.ThrowCall?
      modifies this`implementation, this`interceptors, endpoint
      ensures Shell(implementation, interceptors) == StepShell(old(Shell(implementation, interceptors)), c)
      ensures endpoint.State() == AfterCall(old(endpoint.State()), c)
    {
      match c {
        case RegisterMethodCall(name, schema, action) =>
          RegisterMethod(name, schema, action);
        case RegisterMethodWithAuthCall(name, schema, authorize, action) =>
          RegisterMethodWithAuth(name, schema, authorize, action);
        case RegisterInterceptorCall(interceptor) =>
          RegisterInterceptor(interceptor);
        case RegisterCommadableCall(name, schema, action) =>
          endpoint.RegisterCommadableMethod(name, schema, action);
      }
    }

    /**
     * `open`: creates a local endpoint when there is none and registers the
     * shell's registration callback with it; opens the endpoint only when it
     * is local; the shell counts as open only when that succeeded.
     */
    method Open(correlationId: Option<string>, env: OpenEnv) returns (error: Option<Fault>)
      modifies this`endpoint, this`localEndpoint, this`isOpen, endpoint
      ensures old(isOpen) ==>
        && error.None? && isOpen && endpoint == old(endpoint) && localEndpoint == old(localEndpoint)
        && (endpoint != null ==> endpoint.State() == old(endpoint.State()))
      ensures isOpen <==> old(isOpen) || error.None?
      ensures !old(isOpen) && old(endpoint) == null ==>
        fresh(endpoint) && localEndpoint
        && Applied(endpoint.State(), error) == OpenSpec(Initial.(registrations := [registerable]), env, correlationId)
      ensures !old(isOpen) && old(endpoint) != null && old(localEndpoint) ==>
        endpoint == old(endpoint) && localEndpoint
        && Applied(endpoint.State(), error) == OpenSpec(old(endpoint.State()), env, correlationId)
      ensures !old(isOpen) && old(endpoint) != null && !old(localEndpoint) ==>
        endpoint == old(endpoint) && !localEndpoint && error.None? && endpoint.State() == old(endpoint.State())
    {
      if isOpen {
        return None;
      }
      if endpoint == null {
        endpoint := new GrpcEndpoint();
        endpoint.Register(registerable);
        assert endpoint.State() == Initial.(registrations := [registerable]);
        localEndpoint := true;
      }
      error := None;
      if localEndpoint {
        error := endpoint.Open(correlationId, env);
        if error.Some? {
          return;
        }
      }
      isOpen := true;
    }

    /** `open` as written: the endpoint it creates gets the shell object itself as a registration. */
    method OpenAsWritten(correlationId: Option<string>, env: OpenEnv) returns (error: Option<Fault>)
      modifies this`endpoint, this`localEndpoint, this`isOpen, endpoint
      ensures old(isOpen) ==>
        && error.None? && isOpen && endpoint == old(endpoint) && localEndpoint == old(localEndpoint)
        && (endpoint != null ==> endpoint.State() == old(endpoint.State()))
      ensures isOpen <==> old(isOpen) || error.None?
      ensures !old(isOpen) && old(endpoint) == null ==>
        fresh(endpoint) && localEndpoint
        && Applied(endpoint.State(), error) == OpenSpec(Initial.(registrations := [self]), env, correlationId)
      ensures !old(isOpen) && old(endpoint) != null && old(localEndpoint) ==>
        endpoint == old(endpoint) && localEndpoint
        && Applied(endpoint.State(), error) == OpenSpec(old(endpoint.State()), env, correlationId)
      ensures !old(isOpen) && old(endpoint) != null && !old(localEndpoint) ==>
        endpoint == old(endpoint) && !localEndpoint && error.None? && endpoint.State() == old(endpoint.State())
    {
      if isOpen {
        return None;
      }
      if endpoint == null {
        endpoint := new GrpcEndpoint();
        endpoint.Register(self);
        assert endpoint.State() == Initial.(registrations := [self]);
        localEndpoint := true;
      }
      error := None;
      if localEndpoint {
        error := endpoint.Open(correlationId, env);
        if error.Some? {
          return;
        }
      }
      isOpen := true;
    }

    /** `close`: closes only a local endpoint; without an endpoint an open shell cannot close. */
    method Close(correlationId: Option<string>, shutdown: Option<Fault>) returns (error: Option<Fault>)
      modifies this`isOpen, endpoint
      ensures !old(isOpen) ==> error.None? && !isOpen && (endpoint != null ==> endpoint.State() == old(endpoint.State()))
      ensures old(isOpen) && endpoint == null ==> error == Some(NoEndpoint(correlationId)) && isOpen
      ensures old(isOpen) && endpoint != null && localEndpoint ==>
        Applied(endpoint.State(), error) == CloseSpec(old(endpoint.State()), shutdown) && (isOpen <==> error.Some?)
      ensures old(isOpen) && endpoint != null && !localEndpoint ==>
        error.None? && !isOpen && endpoint.State() == old(endpoint.State())
    {
      if !isOpen {
        return None;
      }
      if endpoint == null {
        return Some(NoEndpoint(correlationId));
      }
      error := None;
      if localEndpoint {
        error := endpoint.Close(correlationId, shutdown);
        if error.Some? {
          return;
        }
      }
      isOpen := false;
    }
  }
}
