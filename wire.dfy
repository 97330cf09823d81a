/**
 * The values that cross the commandable protocol: JSON values, structured
 * errors, the invoke request and response envelopes, instrumentation events,
 * and the fully qualified method names both sides agree on.
 *
 * JSON text is produced and consumed by an external library; the model takes
 * it as a `JsonCodec` (three functions) and states the round trip it relies on
 * as the predicate `Faithful`, used as a precondition where it is needed.
 */
module Wire {
  import opened Wrappers

  /** A JSON value; `JNull` also stands for JavaScript's `undefined`. */
  datatype Json =
    | JNull
    | JBool(b: bool)
    | JNumber(n: int)
    | JString(s: string)
    | JArray(items: seq<Json>)
    | JObject(fields: map<string, Json>)

  /** JavaScript truthiness of a JSON value (as tested by `if (x)` or `a && x`). */
  predicate Truthy(j: Json)
  {
    match j
    case JNull => false
    case JBool(b) => b
    case JNumber(n) => n != 0
    case JString(s) => s != ""
    case JArray(_) => true
    case JObject(_) => true
  }

  /** The argument bag a command receives (a `Parameters` map). */
  type Parameters = map<string, Json>

  /** The error categories of the application exception hierarchy. */
  datatype Category =
    | Unknown | Internal | Misconfiguration | InvalidState | NoResponse
    | FailedInvocation | FileError | BadRequest | Unauthorized | Conflict
    | NotFound | Unsupported

  function CategoryName(c: Category): string
  {
    match c
    case Unknown => "Unknown"
    case Internal => "Internal"
    case Misconfiguration => "Misconfiguration"
    case InvalidState => "InvalidState"
    case NoResponse => "NoResponse"
    case FailedInvocation => "FailedInvocation"
    case FileError => "FileError"
    case BadRequest => "BadRequest"
    case Unauthorized => "Unauthorized"
    case Conflict => "Conflict"
    case NotFound => "NotFound"
    case Unsupported => "Unsupported"
  }

  /** Reads a category back from its name; a name it does not know reads as `Unknown`. */
  function CategoryOf(name: string): (c: Category)
    ensures CategoryName(c) == name || c == Unknown
  {
    if name == "Internal" then Internal
    else if name == "Misconfiguration" then Misconfiguration
    else if name == "InvalidState" then InvalidState
    else if name == "NoResponse" then NoResponse
    else if name == "FailedInvocation" then FailedInvocation
    else if name == "FileError" then FileError
    else if name == "BadRequest" then BadRequest
    else if name == "Unauthorized" then Unauthorized
    else if name == "Conflict" then Conflict
    else if name == "NotFound" then NotFound
    else if name == "Unsupported" then Unsupported
    else Unknown
  }

  /**
   * Anything thrown: an application exception with its category, code,
   * correlation id, message, detail map and wrapped cause. Errors raised by
   * libraries (a failed bind, a missing file) are faults of category `Unknown`.
   */
  datatype Fault = Fault(
    category: Category,
    code: string,
    correlationId: Option<string>,
    message: string,
    details: map<string, Option<string>>,
    cause: Option<Fault>)

  /** The structured error that crosses the wire in a response envelope. */
  datatype ErrorDescription = ErrorDescription(
    category: string,
    code: string,
    correlationId: Option<string>,
    message: string,
    details: map<string, Option<string>>,
    cause: Option<string>)

  /** Stands in for the external error-description factory: flattens a fault for the wire. */
  function Describe(f: Fault): ErrorDescription
  {
    ErrorDescription(CategoryName(f.category), f.code, f.correlationId, f.message, f.details,
      if f.cause.Some? then Some(f.cause.value.message) else None)
  }

  /** Stands in for the external application-exception factory: rebuilds a fault from the wire. */
  function Rebuild(d: ErrorDescription): Fault
  {
    Fault(CategoryOf(d.category), d.code, d.correlationId, d.message, d.details, None)
  }

  /** A fault survives the wire with everything but the wrapped cause itself. */
  lemma RebuildDescribe(f: Fault)
    ensures Rebuild(Describe(f)) == f.(cause := None)
  {
    match f.category
    case _ =>
  }

  /**
   * The external JSON library: `stringify` (`JSON.stringify`), `parse`
   * (`JSON.parse`, which throws on malformed text) and `parametersFromJson`
   * (`Parameters.fromJson`).
   */
  datatype JsonCodec = JsonCodec(
    stringify: Json -> string,
    parse: string -> Result<Json, Fault>,
    parametersFromJson: string -> Result<Parameters, Fault>)

  /**
   * What the model assumes of the JSON library: text it produced parses back
   * to the same value, an object's text reads back as the same argument bag,
   * and no value is written as the empty string.
   */
  ghost predicate Faithful(codec: JsonCodec)
  {
    && (forall v :: codec.parse(codec.stringify(v)) == Success(v))
    && (forall m: Parameters :: codec.parametersFromJson(codec.stringify(JObject(m))) == Success(m))
    && (forall v :: codec.stringify(v) != "")
  }

  /** The request envelope of the single transport method "invoke". */
  datatype InvokeRequest = InvokeRequest(
    methodName: string,
    correlationId: Option<string>,
    argsEmpty: bool,
    argsJson: Option<string>)

  /** The response envelope of "invoke". */
  datatype InvokeResponse = InvokeResponse(
    error: Option<ErrorDescription>,
    resultEmpty: bool,
    resultJson: Option<string>)

  /** The envelope invariant: an error carries no result, and "empty" means "no payload". */
  predicate WellFormedResponse(r: InvokeResponse)
  {
    && (r.error.Some? ==> r.resultEmpty)
    && (r.resultEmpty <==> r.resultJson.None?)
  }

  /** The name of the one transport method every command goes through. */
  const InvokeMethod: string := "invoke"

  /** What an instrumentation handle records: opened under a name, ended, or ended with a failure. */
  datatype TimingEvent = Begin(name: string) | Ended | Failed(fault: Fault)

  /** How often an event occurs in a timing record. */
  function Occurrences(events: seq<TimingEvent>, e: TimingEvent): nat
  {
    if events == [] then 0
    else (if events[0] == e then 1 else 0) + Occurrences(events[1..], e)
  }

  /** A timing event that ends the handle: `endTiming` or `endFailure`. */
  predicate Terminal(e: TimingEvent)
  {
    e.Ended? || e.Failed?
  }

  /** A timing record opened once and closed exactly once, by its last event. */
  predicate ClosedOnce(t: seq<TimingEvent>)
  {
    && |t| >= 2 && t[0].Begin? && Terminal(t[|t| - 1])
    && forall i :: 0 <= i < |t| - 1 ==> !Terminal(t[i])
  }

  /** The fully qualified method name `<service>.<command>` both the service and the client build. */
  function QualifiedName(service: string, name: string): string
  {
    service + "." + name
  }

  /** In a qualified name, the first dot is the one that follows the service name. */
  lemma FirstDot(service: string, name: string)
    requires '.' !in service
    ensures forall j :: 0 <= j < |service| ==> QualifiedName(service, name)[j] != '.'
    ensures QualifiedName(service, name)[|service|] == '.'
  {
    var k := QualifiedName(service, name);
    forall j | 0 <= j < |service| ensures k[j] != '.' {
      assert k[j] == service[j];
    }
  }

  /**
   * Keys of services whose names contain no dot never collide: the key
   * determines both the service name and the command name.
   */
  lemma QualifiedNameInjective(s1: string, c1: string, s2: string, c2: string)
    requires '.' !in s1 && '.' !in s2
    requires QualifiedName(s1, c1) == QualifiedName(s2, c2)
    ensures s1 == s2 && c1 == c2
  {
    var k := QualifiedName(s1, c1);
    assert k == s1 + "." + c1 == s2 + "." + c2;
    FirstDot(s1, c1);
    FirstDot(s2, c2);
    assert |s1| == |s2|;
    assert s1 == k[..|s1|] == s2;
    assert c1 == k[|s1| + 1..] == c2;
  }
}
