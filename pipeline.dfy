/**
 * How a service method handler runs: the interceptor chain, authorization,
 * schema validation and the action, as the service shell composes them.
 *
 * `Execute` gives the meaning of a `Handler`: the outcome and a trace of the
 * steps taken. `applyValidation` and `applyInterceptors` build handlers; the
 * lemmas say in which order the steps run and what stops a call before its
 * action. The composition `registerMethodWithAuth` builds as written is
 * modelled separately (`CycleChain`, `CycleAuth`): its authorizer's `next` is
 * the finished wrapper itself, not the validated action.
 */
module Pipeline {
  import opened Wrappers
  import opened Wire
  import opened Handlers

  /** A step of a call through a handler. */
  datatype Event = Entered(id: nat) | Authorizing(id: nat) | Validating | ActionRan(id: nat)

  /** The outcome of a call and the steps it took. */
  datatype Run = Run(outcome: Outcome, trace: seq<Event>)

  /**
   * Runs a handler on a call. `validate` stands for the schema library's
   * `validateAndReturnException` applied to the request.
   */
  function Execute(h: Handler, call: Call, validate: (Schema, Json) -> Option<Fault>): Run
    decreases h
  {
    match h
    case Leaf(id, body) => Run(body(call), [ActionRan(id)])
    case Validated(schema, next) =>
      if schema.Some? && Truthy(call.request) then
        match validate(schema.value, call.request)
        case Some(f) => Run(Threw(f), [Validating])
        case None =>
          var r := Execute(next, call, validate);
          Run(r.outcome, [Validating] + r.trace)
      else Execute(next, call, validate)
    case Authorized(auth, next) =>
      (match auth.before(call)
       case Stop(o) => Run(o, [Authorizing(auth.id)])
       case Proceed(c) =>
         var r := Execute(next, c, validate);
         Run(auth.after(r.outcome), [Authorizing(auth.id)] + r.trace))
    case Intercepted(i, next) =>
      match i.before(call)
      case Stop(o) => Run(o, [Entered(i.id)])
      case Proceed(c) =>
        var r := Execute(next, c, validate);
        Run(i.after(r.outcome), [Entered(i.id)] + r.trace)
  }

  /** `applyValidation`: validation of the request, then the action. */
  function ApplyValidation(schema: Option<Schema>, action: Handler): Handler
  {
    Validated(schema, action)
  }

  /**
   * Without a schema, or on an empty request, the validated action runs as
   * it is; otherwise a request the schema rejects fails with the schema's
   * error before the action, and one it accepts runs the action after the
   * check.
   */
  lemma ValidationGuardsAction(schema: Option<Schema>, action: Handler, call: Call,
                               validate: (Schema, Json) -> Option<Fault>)
    ensures schema.None? || !Truthy(call.request) ==>
      Execute(ApplyValidation(schema, action), call, validate) == Execute(action, call, validate)
    ensures schema.Some? && Truthy(call.request) && validate(schema.value, call.request).Some? ==>
      Execute(ApplyValidation(schema, action), call, validate)
        == Run(Threw(validate(schema.value, call.request).value), [Validating])
    ensures schema.Some? && Truthy(call.request) && validate(schema.value, call.request).None? ==>
      var r := Execute(action, call, validate);
      Execute(ApplyValidation(schema, action), call, validate) == Run(r.outcome, [Validating] + r.trace)
  {
  }

  /** The interceptors wrapped around a handler, the first registered outermost. */
  function Nest(interceptors: seq<Interceptor>, h: Handler): Handler
  {
    if interceptors == [] then h else Intercepted(interceptors[0], Nest(interceptors[1..], h))
  }

  /** The trace of passing every interceptor, in registration order. */
  function Entries(interceptors: seq<Interceptor>): seq<Event>
  {
    if interceptors == [] then [] else [Entered(interceptors[0].id)] + Entries(interceptors[1..])
  }

  /** `applyInterceptors`: wraps from the last interceptor to the first. */
  method ApplyInterceptors(interceptors: seq<Interceptor>, action: Handler) returns (wrapper: Handler)
    ensures wrapper == Nest(interceptors, action)
  {
    wrapper := action;
    var index := |interceptors| - 1;
    while index >= 0
      invariant -1 <= index < |interceptors|
      invariant wrapper == Nest(interceptors[index + 1..], action)
    {
      assert interceptors[index..][1..] == interceptors[index + 1..];
      wrapper := Intercepted(interceptors[index], wrapper);
      index := index - 1;
    }
    assert interceptors[0..] == interceptors;
  }

  /** The call the interceptor chain hands to the inner handler, or `None` when an interceptor stops it. */
  function Forwarded(interceptors: seq<Interceptor>, call: Call): Option<Call>
  {
    if interceptors == [] then Some(call)
    else match interceptors[0].before(call)
      case Stop(_) => None
      case Proceed(c) => Forwarded(interceptors[1..], c)
  }

  /** How many interceptors a call enters before it is handed on or stopped. */
  function Depth(interceptors: seq<Interceptor>, call: Call): nat
  {
    if interceptors == [] then 0
    else match interceptors[0].before(call)
      case Stop(_) => 1
      case Proceed(c) => 1 + Depth(interceptors[1..], c)
  }

  /**
   * A call through the interceptor chain either passes every interceptor,
   * first registered first, and then runs the inner handler on the call the
   * last one forwarded (this lemma), or is stopped by one interceptor after
   * all the ones before it (`NestTraceStopped`); in neither case does an
   * interceptor run twice.
   */
  lemma {:induction false} NestTracePassed(interceptors: seq<Interceptor>, h: Handler, call: Call,
                                           validate: (Schema, Json) -> Option<Fault>)
    ensures var r := Execute(Nest(interceptors, h), call, validate);
      Forwarded(interceptors, call).Some? ==>
        r.trace == Entries(interceptors) + Execute(h, Forwarded(interceptors, call).value, validate).trace
    decreases |interceptors|
  {
    if interceptors == [] {
      assert Execute(Nest(interceptors, h), call, validate).trace == Entries(interceptors) + Execute(h, call, validate).trace;
    } else {
      var i := interceptors[0];
      var rest := interceptors[1..];
      assert Nest(interceptors, h) == Intercepted(i, Nest(rest, h));
      assert Entries(interceptors) == [Entered(i.id)] + Entries(rest);
      match i.before(call)
      case Stop(f) =>
      case Proceed(c) =>
        NestTracePassed(rest, h, c, validate);
        if Forwarded(rest, c).Some? {
          var trace := Execute(Nest(interceptors, h), call, validate).trace;
          var t := Execute(h, Forwarded(rest, c).value, validate).trace;
          assert trace == [Entered(i.id)] + (Entries(rest) + t);
          assert trace == ([Entered(i.id)] + Entries(rest)) + t;
        }
    }
  }

  /**
   * A call some interceptor stops, answering it or failing it without calling
   * `next`, enters exactly the interceptors up to and including that one.
   */
  lemma {:induction false} NestTraceStopped(interceptors: seq<Interceptor>, h: Handler, call: Call,
                                             validate: (Schema, Json) -> Option<Fault>)
    ensures var r := Execute(Nest(interceptors, h), call, validate);
      Forwarded(interceptors, call).None? ==>
        1 <= Depth(interceptors, call) <= |interceptors| && r.trace == Entries(interceptors[..Depth(interceptors, call)])
    decreases |interceptors|
  {
    if interceptors != [] {
      var i := interceptors[0];
      var rest := interceptors[1..];
      assert Nest(interceptors, h) == Intercepted(i, Nest(rest, h));
      match i.before(call)
      case Stop(f) =>
        assert interceptors[..1] == [i];
        assert Entries(interceptors[..1]) == [Entered(i.id)] + Entries(interceptors[1..1]);
      case Proceed(c) =>
        NestTraceStopped(rest, h, c, validate);
        if Forwarded(rest, c).None? {
          var k := Depth(rest, c);
          assert Execute(Nest(interceptors, h), call, validate).trace == [Entered(i.id)] + Execute(Nest(rest, h), c, validate).trace;
          assert interceptors[..k + 1][0] == i && interceptors[..k + 1][1..] == rest[..k];
          assert Entries(interceptors[..k + 1]) == [Entered(i.id)] + Entries(rest[..k]);
        }
    }
  }

  /** The events of passing interceptors are interceptor entries only. */
  lemma {:induction false} EntriesAreEntries(interceptors: seq<Interceptor>)
    ensures |Entries(interceptors)| == |interceptors|
    ensures forall j :: 0 <= j < |interceptors| ==> Entries(interceptors)[j] == Entered(interceptors[j].id)
    ensures forall e :: e in Entries(interceptors) ==> e.Entered?
  {
    if interceptors != [] {
      EntriesAreEntries(interceptors[1..]);
    }
  }

  /** The handler `registerMethod` installs: interceptors around validation around the action. */
  function MethodHandler(interceptors: seq<Interceptor>, schema: Option<Schema>, action: Handler): Handler
  {
    Nest(interceptors, ApplyValidation(schema, action))
  }

  /**
   * The handler `registerMethodWithAuth` evidently intends: interceptors, then
   * authorization "just before validation", then validation, then the action.
   */
  function AuthorizedMethodHandler(interceptors: seq<Interceptor>, schema: Option<Schema>, authorize: Interceptor,
                                   action: Handler): Handler
  {
    Nest(interceptors, Authorized(authorize, ApplyValidation(schema, action)))
  }

  /** Behind the interceptors, a call that reaches the action was authorized first and ran the action last. */
  lemma AuthorizedInnerTrace(schema: Option<Schema>, authorize: Interceptor, id: nat, body: Call -> Outcome,
                             call: Call, validate: (Schema, Json) -> Option<Fault>)
    ensures var t := Execute(Authorized(authorize, ApplyValidation(schema, Leaf(id, body))), call, validate).trace;
      ActionRan(id) in t ==> |t| >= 2 && t[0] == Authorizing(authorize.id) && t[|t| - 1] == ActionRan(id)
  {
    match authorize.before(call)
    case Stop(_) =>
    case Proceed(c) =>
      var v := Execute(Validated(schema, Leaf(id, body)), c, validate).trace;
      assert Execute(Leaf(id, body), c, validate).trace == [ActionRan(id)];
      if schema.Some? && Truthy(c.request) && validate(schema.value, c.request).None? {
        assert v == [Validating] + [ActionRan(id)];
      }
  }

  /** A call whose trace reaches an action was handed on by every interceptor, after entering each. */
  lemma ActionRunsOnlyWhenForwarded(interceptors: seq<Interceptor>, h: Handler, id: nat, call: Call,
                                    validate: (Schema, Json) -> Option<Fault>)
    requires ActionRan(id) in Execute(Nest(interceptors, h), call, validate).trace
    ensures Forwarded(interceptors, call).Some?
    ensures var t := Execute(h, Forwarded(interceptors, call).value, validate).trace;
      && Execute(Nest(interceptors, h), call, validate).trace == Entries(interceptors) + t
      && ActionRan(id) in t
  {
    NestTracePassed(interceptors, h, call, validate);
    NestTraceStopped(interceptors, h, call, validate);
    if Forwarded(interceptors, call).None? {
      EntriesAreEntries(interceptors[..Depth(interceptors, call)]);
      assert false;
    }
    EntriesAreEntries(interceptors);
  }

  /**
   * An authorizer that stops the call, rejecting it or answering it itself,
   * ends it in the intended composition: a call the interceptors hand on and
   * the authorizer stops enters every interceptor and the authorizer, and
   * nothing more; the action never runs, and with no interceptors the caller
   * gets the authorizer's own outcome.
   */
  lemma StoppedCallNeverReachesAction(interceptors: seq<Interceptor>, schema: Option<Schema>, authorize: Interceptor,
                                      id: nat, body: Call -> Outcome, call: Call,
                                      validate: (Schema, Json) -> Option<Fault>)
    requires Forwarded(interceptors, call).Some?
    requires authorize.before(Forwarded(interceptors, call).value).Stop?
    ensures var r := Execute(AuthorizedMethodHandler(interceptors, schema, authorize, Leaf(id, body)), call, validate);
      && r.trace == Entries(interceptors) + [Authorizing(authorize.id)]
      && ActionRan(id) !in r.trace
      && (interceptors == [] ==> r.outcome == authorize.before(call).outcome)
  {
    var inner := Authorized(authorize, ApplyValidation(schema, Leaf(id, body)));
    NestTracePassed(interceptors, inner, call, validate);
    assert Execute(inner, Forwarded(interceptors, call).value, validate).trace == [Authorizing(authorize.id)];
    EntriesAreEntries(interceptors);
  }

  /** The validation step a call takes before the action: one exactly when a schema applies to its request. */
  function ValidationSteps(schema: Option<Schema>, call: Call): seq<Event>
  {
    if schema.Some? && Truthy(call.request) then [Validating] else []
  }

  /** A validated action that runs takes the validation step, when one applies, and then runs. */
  lemma ValidatedTrace(schema: Option<Schema>, id: nat, body: Call -> Outcome, call: Call,
                       validate: (Schema, Json) -> Option<Fault>)
    requires ActionRan(id) in Execute(ApplyValidation(schema, Leaf(id, body)), call, validate).trace
    ensures Execute(ApplyValidation(schema, Leaf(id, body)), call, validate).trace == ValidationSteps(schema, call) + [ActionRan(id)]
  {
    assert Execute(Leaf(id, body), call, validate).trace == [ActionRan(id)];
  }

  /**
   * In the handler `registerMethod` installs, a call whose action runs has
   * entered every interceptor, in registration order, then passed validation
   * when a schema applies to the call the chain forwarded, and the action is
   * its last step.
   */
  lemma MethodHandlerOrder(interceptors: seq<Interceptor>, schema: Option<Schema>, id: nat, body: Call -> Outcome,
                           call: Call, validate: (Schema, Json) -> Option<Fault>)
    requires ActionRan(id) in Execute(MethodHandler(interceptors, schema, Leaf(id, body)), call, validate).trace
    ensures Forwarded(interceptors, call).Some?
    ensures Execute(MethodHandler(interceptors, schema, Leaf(id, body)), call, validate).trace
      == Entries(interceptors) + ValidationSteps(schema, Forwarded(interceptors, call).value) + [ActionRan(id)]
  {
    var inner := ApplyValidation(schema, Leaf(id, body));
    ActionRunsOnlyWhenForwarded(interceptors, inner, id, call, validate);
    var c := Forwarded(interceptors, call).value;
    ValidatedTrace(schema, id, body, c, validate);
    assert Entries(interceptors) + (ValidationSteps(schema, c) + [ActionRan(id)])
      == Entries(interceptors) + ValidationSteps(schema, c) + [ActionRan(id)];
  }

  /**
   * Whatever the handler, a call takes at least one step, and an action runs
   * only as the last step of the call: nothing runs after it.
   */
  lemma {:induction false} ActionRunsLast(h: Handler, call: Call, validate: (Schema, Json) -> Option<Fault>)
    ensures var t := Execute(h, call, validate).trace;
      |t| >= 1 && forall k :: 0 <= k < |t| - 1 ==> !t[k].ActionRan?
    decreases h
  {
    match h
    case Leaf(_, _) =>
    case Validated(schema, next) =>
      ActionRunsLast(next, call, validate);
      var r := Execute(next, call, validate).trace;
      assert forall k :: 1 <= k < |[Validating] + r| ==> ([Validating] + r)[k] == r[k - 1];
    case Authorized(auth, next) =>
      match auth.before(call) {
        case Stop(_) =>
        case Proceed(c) =>
          ActionRunsLast(next, c, validate);
          var r := Execute(next, c, validate).trace;
          assert forall k :: 1 <= k < |[Authorizing(auth.id)] + r| ==> ([Authorizing(auth.id)] + r)[k] == r[k - 1];
      }
    case Intercepted(i, next) =>
      match i.before(call) {
        case Stop(_) =>
        case Proceed(c) =>
          ActionRunsLast(next, c, validate);
          var r := Execute(next, c, validate).trace;
          assert forall k :: 1 <= k < |[Entered(i.id)] + r| ==> ([Entered(i.id)] + r)[k] == r[k - 1];
      }
  }

  // ---------------------------------------------------------------------------
  // registerMethodWithAuth as written

  /** Every interceptor and the authorizer let every call through. */
  ghost predicate AllProceed(interceptors: seq<Interceptor>, authorize: Interceptor)
  {
    && (forall i, c :: 0 <= i < |interceptors| ==> interceptors[i].before(c).Proceed?)
    && (forall c :: authorize.before(c).Proceed?)
  }

  /**
   * The wrapper `registerMethodWithAuth` installs as written, from interceptor
   * `k` on: the interceptor chain, whose innermost step is the authorizer,
   * whose `next` is the whole wrapper again (the variable it captured has been
   * reassigned by then). The validated action is not reachable from it.
   * `fuel` bounds how often the authorizer may re-enter the chain; `None`
   * means the call had not finished within that bound.
   */
  function CycleChain(fuel: nat, interceptors: seq<Interceptor>, k: nat, authorize: Interceptor, call: Call): Option<Run>
    requires k <= |interceptors|
    decreases fuel, |interceptors| - k + 1
  {
    if k == |interceptors| then CycleAuth(fuel, interceptors, authorize, call)
    else
      var i := interceptors[k];
      match i.before(call)
      case Stop(o) => Some(Run(o, [Entered(i.id)]))
      case Proceed(c) =>
        match CycleChain(fuel, interceptors, k + 1, authorize, c)
        case None => None
        case Some(r) => Some(Run(i.after(r.outcome), [Entered(i.id)] + r.trace))
  }

  /** The authorizer step of the wrapper as written: its `next` restarts the chain. */
  function CycleAuth(fuel: nat, interceptors: seq<Interceptor>, authorize: Interceptor, call: Call): Option<Run>
    decreases fuel, 0
  {
    match authorize.before(call)
    case Stop(o) => Some(Run(o, [Authorizing(authorize.id)]))
    case Proceed(c) =>
      if fuel == 0 then None
      else
        match CycleChain(fuel - 1, interceptors, 0, authorize, c)
        case None => None
        case Some(r) => Some(Run(authorize.after(r.outcome), [Authorizing(authorize.id)] + r.trace))
  }

  /**
   * When every interceptor and the authorizer let the call through, the
   * wrapper as written never finishes, however much fuel it is given: the
   * authorizer re-enters the chain without end instead of reaching the
   * action (at run time a stack overflow or a call that never settles).
   */
  lemma {:induction false} CycleNeverReturns(fuel: nat, interceptors: seq<Interceptor>, k: nat, authorize: Interceptor,
                                             call: Call)
    requires k <= |interceptors|
    requires AllProceed(interceptors, authorize)
    ensures CycleChain(fuel, interceptors, k, authorize, call) == None
    decreases fuel, |interceptors| - k + 1
  {
    if k == |interceptors| {
      var c := authorize.before(call).call;
      if fuel > 0 {
        CycleNeverReturns(fuel - 1, interceptors, 0, authorize, c);
      }
    } else {
      var c := interceptors[k].before(call).call;
      CycleNeverReturns(fuel, interceptors, k + 1, authorize, c);
    }
  }

  /**
   * Whatever the interceptors and the authorizer decide, a call through the
   * wrapper as written that finishes never ran the action: it finished only
   * because some step stopped it.
   */
  lemma {:induction false} CycleNeverRunsAction(fuel: nat, interceptors: seq<Interceptor>, k: nat, authorize: Interceptor,
                                                call: Call)
    requires k <= |interceptors|
    ensures match CycleChain(fuel, interceptors, k, authorize, call)
      case None => true
      case Some(r) => forall e :: e in r.trace ==> !e.ActionRan? && !e.Validating?
    decreases fuel, |interceptors| - k + 1
  {
    if k == |interceptors| {
      match authorize.before(call)
      case Stop(f) =>
      case Proceed(c) =>
        if fuel > 0 {
          CycleNeverRunsAction(fuel - 1, interceptors, 0, authorize, c);
        }
    } else {
      match interceptors[k].before(call)
      case Stop(f) =>
      case Proceed(c) =>
        CycleNeverRunsAction(fuel, interceptors, k + 1, authorize, c);
    }
  }

  /** When every interceptor lets every call through, the chain hands every call on. */
  lemma {:induction false} ForwardedWhenAllProceed(interceptors: seq<Interceptor>, call: Call)
    requires forall i, c :: 0 <= i < |interceptors| ==> interceptors[i].before(c).Proceed?
    ensures Forwarded(interceptors, call).Some?
    decreases |interceptors|
  {
    if interceptors != [] {
      var rest := interceptors[1..];
      forall i, c | 0 <= i < |rest|
        ensures rest[i].before(c).Proceed?
      {
        assert rest[i] == interceptors[i + 1];
      }
      ForwardedWhenAllProceed(rest, interceptors[0].before(call).call);
    }
  }

  /** Behind the interceptors, an authorizer that lets the call through and a check that passes lead to the action. */
  lemma InnerReachesAction(schema: Option<Schema>, authorize: Interceptor, id: nat, body: Call -> Outcome,
                           call: Call, validate: (Schema, Json) -> Option<Fault>)
    requires authorize.before(call).Proceed?
    requires schema.Some? ==> validate(schema.value, authorize.before(call).call.request).None?
    ensures ActionRan(id) in Execute(Authorized(authorize, ApplyValidation(schema, Leaf(id, body))), call, validate).trace
  {
    var c := authorize.before(call).call;
    assert Execute(Leaf(id, body), c, validate).trace == [ActionRan(id)];
    ValidationGuardsAction(schema, Leaf(id, body), c, validate);
    var v := Execute(ApplyValidation(schema, Leaf(id, body)), c, validate).trace;
    assert ActionRan(id) in v by {
      if schema.Some? && Truthy(c.request) {
        assert v == [Validating] + [ActionRan(id)];
        assert v[1] == ActionRan(id);
      }
    }
    assert Execute(Authorized(authorize, ApplyValidation(schema, Leaf(id, body))), call, validate).trace
      == [Authorizing(authorize.id)] + v;
  }

  /**
   * The interceptors and authorizer that hang the wrapper as written, on any
   * call and at every fuel bound, lead the same call to the action in the
   * intended composition, when the schema's check passes.
   */
  lemma IntendedReachesAction(interceptors: seq<Interceptor>, authorize: Interceptor, schema: Option<Schema>,
                              id: nat, body: Call -> Outcome, call: Call, validate: (Schema, Json) -> Option<Fault>)
    requires AllProceed(interceptors, authorize)
    requires schema.Some? ==> forall j :: validate(schema.value, j).None?
    ensures forall fuel: nat :: CycleChain(fuel, interceptors, 0, authorize, call) == None
    ensures ActionRan(id) in Execute(AuthorizedMethodHandler(interceptors, schema, authorize, Leaf(id, body)), call, validate).trace
  {
    forall fuel: nat
      ensures CycleChain(fuel, interceptors, 0, authorize, call) == None
    {
      CycleNeverReturns(fuel, interceptors, 0, authorize, call);
    }
    ForwardedWhenAllProceed(interceptors, call);
    var inner := Authorized(authorize, ApplyValidation(schema, Leaf(id, body)));
    var c := Forwarded(interceptors, call).value;
    InnerReachesAction(schema, authorize, id, body, c, validate);
    NestTracePassed(interceptors, inner, call, validate);
  }
}
