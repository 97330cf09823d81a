/**
 * The commandable service: exposes every command of a controller's command
 * set through the endpoint's single "invoke" method, under the dispatch key
 * `<service name>.<command name>`, with no validation schema, and times each
 * command it runs.
 */
module CommandableService {
  import opened Wrappers
  import opened Wire
  import opened Handlers
  import opened Endpoint
  import opened Service

  /** What an action gives back to the endpoint and what its timing handle recorded. */
  datatype ActionRun = ActionRun(outcome: Outcome, timing: seq<TimingEvent>)

  /**
   * The action registered for a command: opens a timing under the dispatch
   * key, returns the command's promise and always ends the timing once with
   * `endTiming`; a rejected promise is timed as a success. A command that
   * throws before returning a promise is answered with no value, and its
   * handle is ended twice: first as a failure, then by `endTiming`.
   */
  function RunCommandAction(action: Action, correlationId: Option<string>, args: Parameters): (r: ActionRun)
    ensures |r.timing| >= 2 && r.timing[0] == Begin(action.key) && r.timing[|r.timing| - 1] == Ended
    ensures Occurrences(r.timing, Ended) == 1
    ensures var o := action.command.execute(correlationId, args);
      && (o.Resolved? ==> r.outcome == Returned(o.value) && r.timing == [Begin(action.key), Ended])
      && (o.Rejected? ==> r.outcome == Threw(o.fault) && r.timing == [Begin(action.key), Ended])
      && (o.ThrewSync? ==>
            r.outcome == Returned(JNull) && Occurrences(r.timing, Failed(o.fault)) == 1
            && r.timing == [Begin(action.key), Failed(o.fault), Ended])
  {
    var ended := [Begin(action.key), Ended];
    assert ended[1..] == [Ended] && ended[1..][1..] == [];
    assert Occurrences(ended[1..], Ended) == 1;
    match action.command.execute(correlationId, args)
    case Resolved(v) => ActionRun(Returned(v), ended)
    case Rejected(f) => ActionRun(Threw(f), ended)
    case ThrewSync(f) =>
      var failed := [Begin(action.key), Failed(f), Ended];
      assert failed[1..] == [Failed(f), Ended] && failed[1..][1..] == [Ended] && failed[1..][1..][1..] == [];
      assert Occurrences(failed[1..][1..], Failed(f)) == 0;
      assert Occurrences(failed[1..][1..], Ended) == 1;
      ActionRun(Returned(JNull), failed)
  }

  /**
   * A command that throws before returning a promise ends its timing handle
   * twice (as a failure, then as a success), so the record is not closed
   * exactly once; every other command closes it once.
   */
  lemma SyncThrowEndsTimingTwice(action: Action, correlationId: Option<string>, args: Parameters)
    ensures var r := RunCommandAction(action, correlationId, args);
      action.command.execute(correlationId, args).ThrewSync? <==> !ClosedOnce(r.timing)
  {
    var r := RunCommandAction(action, correlationId, args);
    if action.command.execute(correlationId, args).ThrewSync? {
      assert Terminal(r.timing[1]);
    }
  }

  /** The outcome the endpoint awaits when it runs an action. */
  function RunAction(action: Action, correlationId: Option<string>, args: Parameters): Outcome
  {
    RunCommandAction(action, correlationId, args).outcome
  }

  /** The dispatch key and action for one command. */
  function CommandRegistration(name: string, command: Command): Effect
  {
    AddCommandable(QualifiedName(name, command.name), None, CommandAction(QualifiedName(name, command.name), command))
  }

  /** `register()`: one commandable method per command, in command-set order. */
  function CommandEffects(name: string, commands: seq<Command>): (effects: seq<Effect>)
    ensures |effects| == |commands|
    ensures forall i :: 0 <= i < |commands| ==> effects[i] == CommandRegistration(name, commands[i])
  {
    if commands == [] then [] else [CommandRegistration(name, commands[0])] + CommandEffects(name, commands[1..])
  }

  /** `register()` as calls into the shell; looking the controller up may throw. */
  function CommandScript(name: string, controller: Result<seq<Command>, Fault>): seq<ShellCall>
  {
    match controller
    case Failure(f) => [ThrowCall(f)]
    case Success(commands) => CommandCalls(name, commands)
  }

  /** One `registerCommadableMethod` call per command, in the controller's order, under its qualified name. */
  function CommandCalls(name: string, commands: seq<Command>): (calls: seq<ShellCall>)
    ensures |calls| == |commands|
    ensures forall i :: 0 <= i < |commands| ==>
      var key := QualifiedName(name, commands[i].name);
      calls[i] == RegisterCommadableCall(key, None, CommandAction(key, commands[i]))
  {
    if commands == [] then []
    else
      var key := QualifiedName(name, commands[0].name);
      [RegisterCommadableCall(key, None, CommandAction(key, commands[0]))] + CommandCalls(name, commands[1..])
  }

  /** Run by the shell, the command calls make exactly the command registrations and leave the shell as it was. */
  lemma {:induction false} CommandCallsRun(sh: Shell, name: string, commands: seq<Command>)
    ensures RunScript(sh, CommandCalls(name, commands)) == ScriptRun(sh, CommandEffects(name, commands), None)
  {
    if commands != [] {
      CommandCallsRun(sh, name, commands[1..]);
      assert CommandCalls(name, commands)[1..] == CommandCalls(name, commands[1..]);
    }
  }

  /**
   * Registered with an endpoint, a commandable service (which has no service
   * definition of its own) adds no service: it registers its commands, or
   * throws the controller lookup error.
   */
  lemma CommandableRegistration(name: string, controller: Result<seq<Command>, Fault>, proto: Result<PackageObject, Fault>)
    ensures RegistrationEffects(None, None, None, CommandScript(name, controller), proto)
      == if controller.Failure? then [Raise(controller.error)] else CommandEffects(name, controller.value)
  {
    match controller
    case Failure(f) =>
      assert RunScript(Shell(map[], []), [ThrowCall(f)]) == ScriptRun(Shell(map[], []), [], Some(f));
    case Success(commands) =>
      CommandCallsRun(Shell(map[], []), name, commands);
  }

  /** The action the table holds for a key after registering commands, when some command has that key. */
  function LastWith(name: string, commands: seq<Command>, key: string): Option<Action>
  {
    if commands == [] then None
    else
      var later := LastWith(name, commands[1..], key);
      if later.Some? then later
      else if QualifiedName(name, commands[0].name) == key then Some(CommandAction(key, commands[0]))
      else None
  }

  /**
   * After registering a command set, each dispatch key leads to the last
   * command registered under it; every other key is left as it was. No
   * server is needed and nothing can fail.
   */
  lemma {:induction false} RegisteredCommandsTable(s: EndpointState, name: string, commands: seq<Command>, key: string)
    ensures var r := ApplyEffects(s, CommandEffects(name, commands));
      && r.error.None?
      && Entry(r.state.methods, key) == (if LastWith(name, commands, key).Some? then LastWith(name, commands, key) else Entry(s.methods, key))
    decreases |commands|
  {
    if commands != [] {
      var effects := CommandEffects(name, commands);
      var s1 := RegisterCommadable(s, QualifiedName(name, commands[0].name), None,
                                   CommandAction(QualifiedName(name, commands[0].name), commands[0]));
      assert effects[1..] == CommandEffects(name, commands[1..]);
      assert ApplyEffects(s, effects) == ApplyEffects(s1, CommandEffects(name, commands[1..]));
      RegisteredCommandsTable(s1, name, commands[1..], key);
    }
  }

  /** The last command with a key is a command of the set, and the key is its qualified name. */
  lemma {:induction false} LastWithIsRegistered(name: string, commands: seq<Command>, key: string)
    ensures LastWith(name, commands, key).Some? ==>
      exists i :: 0 <= i < |commands| && QualifiedName(name, commands[i].name) == key
        && LastWith(name, commands, key) == Some(CommandAction(key, commands[i]))
  {
    if commands != [] {
      LastWithIsRegistered(name, commands[1..], key);
      if LastWith(name, commands[1..], key).Some? {
        var i :| 0 <= i < |commands[1..]| && QualifiedName(name, commands[1..][i].name) == key
          && LastWith(name, commands[1..], key) == Some(CommandAction(key, commands[1..][i]));
        assert commands[i + 1] == commands[1..][i];
      }
    }
  }

  /**
   * Two services whose names hold no dot never overwrite each other's
   * commands: registering one service's commands leaves every key of the
   * other service as it was.
   */
  lemma ServicesDoNotCollide(s: EndpointState, name: string, commands: seq<Command>, other: string, command: string)
    requires '.' !in name && '.' !in other && name != other
    ensures Entry(ApplyEffects(s, CommandEffects(name, commands)).state.methods, QualifiedName(other, command))
      == Entry(s.methods, QualifiedName(other, command))
  {
    var key := QualifiedName(other, command);
    RegisteredCommandsTable(s, name, commands, key);
    LastWithIsRegistered(name, commands, key);
    if LastWith(name, commands, key).Some? {
      var i :| 0 <= i < |commands| && QualifiedName(name, commands[i].name) == key;
      QualifiedNameInjective(name, commands[i].name, other, command);
      assert false;
    }
  }

  class CommandableGrpcService {
    const name: string
    /** The service shell this service extends; it has no service definition of its own. */
    const base: GrpcService
    var commandSet: Option<seq<Command>>

    constructor (name: string, registerable: RegistrationId, self: RegistrationId)
      requires registerable != self
      ensures this.name == name && fresh(base) && commandSet.None?
      ensures base.service.None? && base.protoPath.None? && base.serviceName.None?
      ensures base.endpoint == null && !base.isOpen
    {
      this.name := name;
      base := new GrpcService(Neither, None, registerable, self);
      commandSet := None;
    }

    /**
     * `register()`: looks up the controller (`controller` is that lookup, a
     * failure when no controller is referenced), keeps its command set and
     * registers one commandable method per command with the endpoint.
     */
    method Register(controller: Result<seq<Command>, Fault>) returns (error: Option<Fault>)
      requires base.endpoint != null
      modifies this`commandSet, base.endpoint
      ensures controller.Failure? ==>
        error == Some(controller.error) && commandSet == old(commandSet) && base.endpoint.State() == old(base.endpoint.State())
      ensures controller.Success? ==>
        error.None? && commandSet == Some(controller.value)
        && Applied(base.endpoint.State(), None) == ApplyEffects(old(base.endpoint.State()), CommandEffects(name, controller.value))
    {
      if controller.Failure? {
        return Some(controller.error);
      }
      commandSet := Some(controller.value);
      var commands := controller.value;
      ghost var whole := CommandEffects(name, commands);
      var endpoint := base.endpoint;
      for index := 0 to |commands|
        invariant commandSet == Some(commands)
        invariant ApplyEffects(old(endpoint.State()), whole) == ApplyEffects(endpoint.State(), whole[index..])
      {
        assert whole[index..][0] == whole[index] && whole[index..][1..] == whole[index + 1..];
        var command := commands[index];
        var key := QualifiedName(name, command.name);
        endpoint.RegisterCommadableMethod(key, None, CommandAction(key, command));
      }
      return None;
    }
  }
}
