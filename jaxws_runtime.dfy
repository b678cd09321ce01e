/**
 * The parts of the JAX-WS runtime the interceptor talks to, as oracles:
 * a `Service` that answers port lookups, and the port stubs it hands out,
 * each with a request context and a fixed way of answering reflective calls.
 */
module JaxWsRuntime {
  import opened Wrappers
  import opened JavaModel
  import opened Throwables
  import opened FeatureResolution

  /**
   * What the runtime produces for a port: the stub's class name, whether the
   * stub implements `BindingProvider`, the request context the runtime fills
   * in itself (the endpoint address of the WSDL port, say), and what
   * `Method.invoke` on it returns or throws (an `InvocationTargetException`
   * around what the port threw, or a local reflection failure).
   */
  datatype StubSpec = StubSpec(
    className: string,
    bindingProvider: bool,
    initialContext: map<string, Value>,
    dispatch: (MethodRef, seq<Value>) -> Result<Value, Thrown>)

  /** A port stub; only its request context changes. */
  class Stub {
    const spec: StubSpec
    var requestContext: map<string, Value>

    constructor (spec: StubSpec)
      ensures this.spec == spec && requestContext == spec.initialContext
    {
      this.spec := spec;
      requestContext := spec.initialContext;
    }
  }

  /**
   * One `Service.getPort` call: with a port name or for the interface alone
   * (`portQName` is `None`), with a feature array or without one.
   */
  datatype PortRequest = PortRequest(
    portQName: Option<QName>,
    serviceInterface: JClass,
    features: Option<seq<Feature>>)

  /** A `javax.xml.ws.Service`, with a record of the port lookups made on it. */
  class Service {
    /** What the runtime answers to each lookup: a new stub of this kind, or an exception. */
    const answer: PortRequest -> Result<StubSpec, Thrown>
    /** Every `getPort` call made on this service, oldest first. */
    ghost var requests: seq<PortRequest>

    constructor (answer: PortRequest -> Result<StubSpec, Thrown>)
      ensures this.answer == answer && requests == []
    {
      this.answer := answer;
      requests := [];
    }

    /** `req` was looked up (once, last) and `r` is the runtime's answer to it. */
    twostate predicate Answered(req: PortRequest, new r: Result<Stub, Thrown>)
      reads this, if r.Success? then {r.value} else {}
    {
      && requests == old(requests) + [req]
      && match answer(req)
         case Failure(e) => r == Failure(e)
         case Success(spec) =>
           r.Success? && fresh(r.value) && r.value.spec == spec
           && r.value.requestContext == spec.initialContext
    }

    /** `Service.getPort`, in all four overloads. */
    method GetPort(req: PortRequest) returns (r: Result<Stub, Thrown>)
      modifies this
      ensures Answered(req, r)
    {
      requests := requests + [req];
      match answer(req)
      case Failure(e) =>
        r := Failure(e);
      case Success(spec) =>
        var stub := new Stub(spec);
        r := Success(stub);
    }
  }
}
