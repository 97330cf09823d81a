/**
 * The commandable client: calls a command of a remote commandable service
 * through the single transport method "invoke", sending the arguments as
 * JSON text and reading back the result or the error, and times each call.
 */
module CommandableClient {
  import opened Wrappers
  import opened Wire
  import opened Handlers
  import opened Endpoint
  import opened CommandableService

  /** The request envelope for a call; `None` arguments are sent as "no arguments". */
  function EncodeRequest(name: string, command: string, correlationId: Option<string>,
                         params: Option<Parameters>, codec: JsonCodec): (r: InvokeRequest)
    ensures r.methodName == QualifiedName(name, command) && r.correlationId == correlationId
    ensures r.argsEmpty <==> params.None?
    ensures r.argsJson.Some? <==> params.Some?
  {
    InvokeRequest(QualifiedName(name, command), correlationId, params.None?,
                  if params.Some? then Some(codec.stringify(JObject(params.value))) else None)
  }

  /** The argument bag a command receives for what the client sent. */
  function Arguments(params: Option<Parameters>): Parameters
  {
    if params.Some? then params.value else map[]
  }

  /**
   * With a faithful JSON library the endpoint reads back exactly the
   * arguments the client sent, under the key the service registered.
   */
  lemma ArgumentsRoundTrip(name: string, command: string, correlationId: Option<string>,
                           params: Option<Parameters>, codec: JsonCodec)
    requires Faithful(codec)
    ensures var req := EncodeRequest(name, command, correlationId, params, codec);
      && req.methodName == QualifiedName(name, command) && req.correlationId == correlationId
      && DecodeArgs(req, codec) == Success(Arguments(params))
  {
    if params.Some? {
      assert codec.stringify(JObject(params.value)) != "";
      assert codec.parametersFromJson(codec.stringify(JObject(params.value))) == Success(params.value);
    }
  }

  /** What a call returns and what its timing handle recorded. */
  datatype ClientCall = ClientCall(result: Result<Json, Fault>, timing: seq<TimingEvent>)

  /**
   * Handling of the transport's reply as written: an error reply is rebuilt
   * and thrown, an empty result is null, anything else is parsed. Every
   * path but the empty result ends the timing.
   */
  function ReceiveAsWritten(route: string, reply: Result<InvokeResponse, Fault>, codec: JsonCodec): (c: ClientCall)
    ensures |c.timing| >= 1 && c.timing[0] == Begin(route)
    ensures reply.Success? && reply.value.error.None? && (reply.value.resultEmpty || reply.value.resultJson.None?) ==>
      c == ClientCall(Success(JNull), [Begin(route)])
  {
    var begin := [Begin(route)];
    match reply
    case Failure(f) => ClientCall(Failure(f), begin + [Failed(f)])
    case Success(response) =>
      if response.error.Some? then
        var err := Rebuild(response.error.value);
        ClientCall(Failure(err), begin + [Failed(err)])
      else if response.resultEmpty || response.resultJson.None? then ClientCall(Success(JNull), begin)
      else match codec.parse(response.resultJson.value)
        case Failure(f) => ClientCall(Failure(f), begin + [Failed(f)])
        case Success(v) => ClientCall(Success(v), begin + [Ended])
  }

  /**
   * Handling of the reply with the timing ended on the empty-result path too:
   * the same result as written, and every call's timing closed exactly once,
   * with a failure exactly when the call fails.
   */
  function Receive(route: string, reply: Result<InvokeResponse, Fault>, codec: JsonCodec): (c: ClientCall)
    ensures c.result == ReceiveAsWritten(route, reply, codec).result
    ensures ClosedOnce(c.timing) && c.timing[0] == Begin(route)
    ensures c.result.Failure? ==> c.timing == [Begin(route), Failed(c.result.error)]
    ensures c.result.Success? ==> c.timing == [Begin(route), Ended]
    ensures reply.Failure? ==> c.result == Failure(reply.error)
    ensures reply.Success? && reply.value.error.Some? ==> c.result == Failure(Rebuild(reply.value.error.value))
    ensures reply.Success? && reply.value.error.None? && (reply.value.resultEmpty || reply.value.resultJson.None?) ==>
      c.result == Success(JNull)
    ensures reply.Success? && reply.value.error.None? && !reply.value.resultEmpty && reply.value.resultJson.Some? ==>
      c.result == codec.parse(reply.value.resultJson.value)
  {
    var begin := [Begin(route)];
    match reply
    case Failure(f) => ClientCall(Failure(f), begin + [Failed(f)])
    case Success(response) =>
      if response.error.Some? then
        var err := Rebuild(response.error.value);
        ClientCall(Failure(err), begin + [Failed(err)])
      else if response.resultEmpty || response.resultJson.None? then ClientCall(Success(JNull), begin + [Ended])
      else match codec.parse(response.resultJson.value)
        case Failure(f) => ClientCall(Failure(f), begin + [Failed(f)])
        case Success(v) => ClientCall(Success(v), begin + [Ended])
  }

  /** An empty result, as any command that resolves with nothing produces, leaves the timing open as written. */
  lemma EmptyResultLeavesTimingOpen(route: string, codec: JsonCodec)
    ensures var reply := Success(InvokeResponse(None, true, None));
      && ReceiveAsWritten(route, reply, codec).result == Success(JNull)
      && !ClosedOnce(ReceiveAsWritten(route, reply, codec).timing)
      && ClosedOnce(Receive(route, reply, codec).timing)
  {
  }

  /** `callCommand` over a transport that answers each "invoke" request. */
  function CommandCall(name: string, command: string, correlationId: Option<string>, params: Option<Parameters>,
                       codec: JsonCodec, transport: InvokeRequest -> Result<InvokeResponse, Fault>): ClientCall
  {
    Receive(QualifiedName(name, command), transport(EncodeRequest(name, command, correlationId, params, codec)), codec)
  }

  /** A transport that delivers every request to an endpoint in state `s`. */
  function Served(s: EndpointState, codec: JsonCodec): InvokeRequest -> Result<InvokeResponse, Fault>
  {
    req => Success(InvokeCommandableMethod(s, req, codec, RunAction))
  }

  /** Under one service name, distinct command names give distinct dispatch keys. */
  lemma QualifiedNameCancels(name: string, a: string, b: string)
    requires QualifiedName(name, a) == QualifiedName(name, b)
    ensures a == b
  {
    assert a == QualifiedName(name, a)[|name| + 1..];
    assert b == QualifiedName(name, b)[|name| + 1..];
  }

  /** No command with the key: the table keeps what it had. */
  lemma {:induction false} LastWithAbsent(name: string, commands: seq<Command>, key: string)
    requires forall j :: 0 <= j < |commands| ==> QualifiedName(name, commands[j].name) != key
    ensures LastWith(name, commands, key).None?
  {
    if commands != [] {
      LastWithAbsent(name, commands[1..], key);
    }
  }

  /** The last command with a given name is the one its key leads to. */
  lemma {:induction false} LastWithFindsLast(name: string, commands: seq<Command>, k: nat)
    requires k < |commands|
    requires forall j :: k < j < |commands| ==> commands[j].name != commands[k].name
    ensures var key := QualifiedName(name, commands[k].name);
      LastWith(name, commands, key) == Some(CommandAction(key, commands[k]))
  {
    var key := QualifiedName(name, commands[k].name);
    if k == 0 {
      forall j | 0 <= j < |commands[1..]|
        ensures QualifiedName(name, commands[1..][j].name) != key
      {
        if QualifiedName(name, commands[1..][j].name) == key {
          assert commands[1..][j] == commands[j + 1];
          QualifiedNameCancels(name, commands[1..][j].name, commands[k].name);
        }
      }
      LastWithAbsent(name, commands[1..], key);
    } else {
      assert commands[1..][k - 1] == commands[k];
      forall j | k - 1 < j < |commands[1..]|
        ensures commands[1..][j].name != commands[1..][k - 1].name
      {
        assert commands[1..][j] == commands[j + 1];
      }
      LastWithFindsLast(name, commands[1..], k - 1);
    }
  }

  /**
   * End to end: once a service has registered its command set with an
   * endpoint, a client calling the last command of a name gets back what
   * that command produced, given the arguments it sent: the value it
   * resolved with, the error it rejected with (less its wrapped cause), or
   * null when it threw before returning a promise; and the call's timing is
   * closed exactly once.
   */
  lemma CommandRoundTrip(s0: EndpointState, name: string, commands: seq<Command>, k: nat,
                         correlationId: Option<string>, params: Option<Parameters>, codec: JsonCodec)
    requires Faithful(codec) && TablesAgree(s0)
    requires k < |commands|
    requires forall j :: k < j < |commands| ==> commands[j].name != commands[k].name
    ensures var s := ApplyEffects(s0, CommandEffects(name, commands)).state;
      var c := CommandCall(name, commands[k].name, correlationId, params, codec, Served(s, codec));
      var o := commands[k].execute(correlationId, Arguments(params));
      && (o.Resolved? ==> c.result == Success(o.value))
      && (o.Rejected? ==> c.result == Failure(o.fault.(cause := None)))
      && (o.ThrewSync? ==> c.result == Success(JNull))
      && ClosedOnce(c.timing)
  {
    var key := QualifiedName(name, commands[k].name);
    var s := ApplyEffects(s0, CommandEffects(name, commands)).state;
    LastWithFindsLast(name, commands, k);
    RegisteredCommandsTable(s0, name, commands, key);
    assert Entry(s.methods, key) == Some(CommandAction(key, commands[k]));
    var req := EncodeRequest(name, commands[k].name, correlationId, params, codec);
    ArgumentsRoundTrip(name, commands[k].name, correlationId, params, codec);
    var response := InvokeCommandableMethod(s, req, codec, RunAction);
    var o := commands[k].execute(correlationId, Arguments(params));
    match o
    case Resolved(v) =>
      if v != JNull {
        assert response == InvokeResponse(None, false, Some(codec.stringify(v)));
        assert codec.parse(codec.stringify(v)) == Success(v);
      }
    case Rejected(f) =>
      assert response == ErrorResponse(f);
      RebuildDescribe(f);
    case ThrewSync(f) =>
  }

  /** An instrumentation handle, as `instrument` opens it, with what has happened to it. */
  class Timing {
    var events: seq<TimingEvent>

    constructor (name: string)
      ensures events == [Begin(name)]
    {
      events := [Begin(name)];
    }

    method EndTiming()
      modifies this
      ensures events == old(events) + [Ended]
    {
      events := events + [Ended];
    }

    method EndFailure(f: Fault)
      modifies this
      ensures events == old(events) + [Failed(f)]
    {
      events := events + [Failed(f)];
    }
  }

  class CommandableGrpcClient {
    /** The remote service's name, the first half of every dispatch key. */
    const name: string

    constructor (name: string)
      ensures this.name == name
    {
      this.name := name;
    }

    /**
     * `callCommand`: opens a timing, sends the request through `transport`
     * (which stands for the base client's "invoke" call) and handles the
     * reply, ending the timing on every path.
     */
    method CallCommand(command: string, correlationId: Option<string>, params: Option<Parameters>,
                       codec: JsonCodec, transport: InvokeRequest -> Result<InvokeResponse, Fault>)
      returns (result: Result<Json, Fault>, timing: Timing)
      ensures fresh(timing)
      ensures ClientCall(result, timing.events) == CommandCall(name, command, correlationId, params, codec, transport)
    {
      var route := QualifiedName(name, command);
      timing := new Timing(route);
      var request := EncodeRequest(name, command, correlationId, params, codec);
      var reply := transport(request);
      if reply.Failure? {
        timing.EndFailure(reply.error);
        return Failure(reply.error), timing;
      }
      var response := reply.value;
      if response.error.Some? {
        var err := Rebuild(response.error.value);
        timing.EndFailure(err);
        return Failure(err), timing;
      }
      if response.resultEmpty || response.resultJson.None? {
        timing.EndTiming();
        return Success(JNull), timing;
      }
      var parsed := codec.parse(response.resultJson.value);
      if parsed.Failure? {
        timing.EndFailure(parsed.error);
        return Failure(parsed.error), timing;
      }
      timing.EndTiming();
      result := parsed;
    }
  }
}
