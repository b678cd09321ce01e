/**
 * `JaxWsPortClientInterceptor`: a client for one port of a JAX-WS service
 * that looks the port stub up and configures it on `prepare`, lazily on the
 * first proxied call if not before, and translates the failures of each call.
 */
module JaxWsPortClient {
  import opened Wrappers
  import opened JavaModel
  import opened Throwables
  import opened FailureTranslation
  import opened FeatureResolution
  import opened StubConfiguration
  import opened JaxWsRuntime

  /**
   * What the interceptor inherits from `LocalJaxWsServiceFactory`: the
   * configured service name, `getQName` (a port name qualified with the
   * configured namespace) and what `createJaxWsService` returns or throws.
   */
  datatype ServiceFactory = ServiceFactory(
    serviceName: Option<string>,
    qualify: string -> QName,
    created: Result<Service, Thrown>)

  /** The exception `prepare` throws when no service interface is set. */
  const MissingServiceInterface: Thrown := Thrown(IllegalArgumentException, "serviceInterface", None)

  /** The exception `setServiceInterface` throws for a class that is not an interface. */
  const NotAnInterface: Thrown := Thrown(IllegalArgumentException, "serviceInterface", None)

  /** The exception `preparePortStub` throws for a stub that is not a `BindingProvider`. */
  function NotCustomizable(spec: StubSpec): Thrown {
    Thrown(RemoteLookupFailureException, spec.className, None)
  }

  /**
   * Whether applying `props` to a stub of kind `spec` succeeds: an empty map
   * never looks at the stub; a non-empty one needs a `BindingProvider`.
   */
  function ApplyOutcome(spec: StubSpec, props: map<string, Value>): Outcome<Thrown> {
    if props != map[] && !spec.bindingProvider then Fail(NotCustomizable(spec)) else Pass
  }

  class PortClientInterceptor {
    // Settings made through plain setters, fixed here at construction.
    const jaxWsService: Option<Service>
    const portName: Option<string>
    const settings: StubSettings
    const webServiceFeatures: Option<seq<FeatureSpec>>
    const beanClassLoader: ClassLoader
    const factory: ServiceFactory

    var serviceInterface: Option<JClass>
    var customProperties: Option<map<string, Value>>
    // The prepared state.
    var portQName: Option<QName>
    var portStub: Option<Stub>

    /** The service interface, once set, is an interface; a committed stub always comes with a port QName. */
    ghost predicate Valid()
      reads this
    {
      && (serviceInterface.Some? ==> serviceInterface.value.isInterface)
      && (portStub.Some? ==> portQName.Some?)
    }

    /** A freshly configured interceptor: no service interface yet, nothing prepared. */
    constructor (jaxWsService: Option<Service>, portName: Option<string>, settings: StubSettings,
                 customProperties: Option<map<string, Value>>, webServiceFeatures: Option<seq<FeatureSpec>>,
                 beanClassLoader: ClassLoader, factory: ServiceFactory)
      ensures Valid()
      ensures this.jaxWsService == jaxWsService && this.portName == portName && this.settings == settings
      ensures this.customProperties == customProperties && this.webServiceFeatures == webServiceFeatures
      ensures this.beanClassLoader == beanClassLoader && this.factory == factory
      ensures serviceInterface.None? && portQName.None? && portStub.None?
    {
      this.jaxWsService := jaxWsService;
      this.portName := portName;
      this.settings := settings;
      this.customProperties := customProperties;
      this.webServiceFeatures := webServiceFeatures;
      this.beanClassLoader := beanClassLoader;
      this.factory := factory;
      serviceInterface := None;
      portQName := None;
      portStub := None;
    }

    /** `setServiceInterface`: null is accepted; a class that is not an interface is refused. */
    method SetServiceInterface(c: Option<JClass>) returns (r: Outcome<Thrown>)
      requires Valid()
      modifies this`serviceInterface
      ensures Valid()
      ensures c.Some? && !c.value.isInterface ==> r == Fail(NotAnInterface) && serviceInterface == old(serviceInterface)
      ensures c.None? || c.value.isInterface ==> r == Pass && serviceInterface == c
    {
      if c.Some? && !c.value.isInterface {
        return Fail(NotAnInterface);
      }
      serviceInterface := c;
      r := Pass;
    }

    /** The custom properties as `getCustomProperties` would return them. */
    function CustomOrEmpty(): map<string, Value>
      reads this
    {
      customProperties.GetOr(map[])
    }

    /** `getCustomProperties`: the map, created empty on first access. */
    method GetCustomProperties() returns (m: map<string, Value>)
      modifies this`customProperties
      ensures m == old(CustomOrEmpty())
      ensures customProperties == Some(m)
    {
      if customProperties.None? {
        customProperties := Some(map[]);
      }
      m := customProperties.value;
    }

    /** `addCustomProperty`: adds or overrides one entry of the (lazily created) map. */
    method AddCustomProperty(name: string, value: Value)
      modifies this`customProperties
      ensures customProperties == Some(old(CustomOrEmpty())[name := value])
    {
      var m := GetCustomProperties();
      customProperties := Some(m[name := value]);
    }

    /** `isPrepared`: a stub has been committed; a port QName is then set, though a later failed `prepare` may have overwritten it. */
    predicate IsPrepared(): (b: bool)
      reads this
      ensures b <==> portStub.Some?
      ensures Valid() && b ==> portQName.Some?
    {
      portStub.Some?
    }

    /** The service `prepare` uses: the one set explicitly, else what `createJaxWsService` gives. */
    function ServiceToUse(): Result<Service, Thrown> {
      if jaxWsService.Some? then Success(jaxWsService.value) else factory.created
    }

    /** The service objects `prepare` may touch. */
    function UsedServices(): set<Service> {
      if ServiceToUse().Success? then {ServiceToUse().value} else {}
    }

    /** The port's qualified name: from the port name if set, else from the interface's name. */
    function PortQNameFor(iface: JClass): QName {
      factory.qualify(if portName.Some? then portName.value else iface.name)
    }

    /** The name passed to the port lookup: explicit only when a port name is set. */
    function LookupName(iface: JClass): Option<QName> {
      if portName.Some? then Some(PortQNameFor(iface)) else None
    }

    /**
     * The `getPort` call `getPortStub` makes for `portQName`, or the failure
     * that converting the feature specifications raises before any lookup.
     */
    function LookupFor(portQName: Option<QName>, iface: JClass): Result<PortRequest, Thrown> {
      if webServiceFeatures.None? then Success(PortRequest(portQName, iface, None))
      else
        match ConvertAll(beanClassLoader, webServiceFeatures.value)
        case Failure(e) => Failure(e)
        case Success(fs) => Success(PortRequest(portQName, iface, Some(fs)))
    }

    /**
     * `FeaturePortProvider.getPortStub`: converts every specification, in
     * order, into an array of features, then looks the port up with them; a
     * failing conversion ends the call before any lookup.
     */
    method FeaturePortStub(service: Service, portQName: Option<QName>, features: seq<FeatureSpec>)
      returns (r: Result<Stub, Thrown>)
      requires serviceInterface.Some?
      modifies service
      ensures ConvertAll(beanClassLoader, features).Failure? ==>
                r == Failure(ConvertAll(beanClassLoader, features).error) && service.requests == old(service.requests)
      ensures ConvertAll(beanClassLoader, features).Success? ==>
                service.Answered(PortRequest(portQName, serviceInterface.value,
                                             Some(ConvertAll(beanClassLoader, features).value)), r)
    {
      var wsFeatures := new Feature[|features|];
      var i := 0;
      while i < |features|
        invariant 0 <= i <= |features|
        invariant ConvertAll(beanClassLoader, features[..i]) == Success(wsFeatures[..i])
        invariant service.requests == old(service.requests)
      {
        var f := ConvertFeature(beanClassLoader, features[i]);
        ConvertAllExtend(beanClassLoader, features, i, wsFeatures[..i]);
        if f.Failure? {
          ConvertAllPrefixFailure(beanClassLoader, features, i + 1);
          return Failure(f.error);
        }
        ghost var converted := wsFeatures[..i];
        wsFeatures[i] := f.value;
        assert wsFeatures[..i + 1] == converted + [f.value];
        i := i + 1;
      }
      assert features[..i] == features;
      assert wsFeatures[..] == wsFeatures[..i];
      r := service.GetPort(PortRequest(portQName, serviceInterface.value, Some(wsFeatures[..])));
    }

    /**
     * `getPortStub(Service, QName)`: with feature specifications, the
     * feature-aware lookup; otherwise `getPort` with the name if one is
     * given, or for the interface alone.
     */
    method GetPortStub(service: Service, portQName: Option<QName>) returns (r: Result<Stub, Thrown>)
      requires serviceInterface.Some?
      modifies service
      ensures LookupFor(portQName, serviceInterface.value).Failure? ==>
                r == Failure(LookupFor(portQName, serviceInterface.value).error)
                && service.requests == old(service.requests)
      ensures LookupFor(portQName, serviceInterface.value).Success? ==>
                service.Answered(LookupFor(portQName, serviceInterface.value).value, r)
    {
      if webServiceFeatures.Some? {
        r := FeaturePortStub(service, portQName, webServiceFeatures.value);
      } else {
        r := service.GetPort(PortRequest(portQName, serviceInterface.value, None));
      }
    }

    /**
     * `preparePortStub`: assembles the property map (built-in entries, then
     * the custom properties, created empty if absent) and, unless it is
     * empty, pushes all of it into the stub's request context, refusing a
     * stub that is not a `BindingProvider` without writing anything.
     */
    method PreparePortStub(stub: Stub) returns (r: Outcome<Thrown>)
      modifies this`customProperties, stub`requestContext
      ensures customProperties == Some(old(CustomOrEmpty()))
      ensures r == ApplyOutcome(stub.spec, StubProperties(settings, old(CustomOrEmpty())))
      ensures r.Fail? || StubProperties(settings, old(CustomOrEmpty())) == map[] ==>
                stub.requestContext == old(stub.requestContext)
      ensures r.Pass? ==>
                stub.requestContext == old(stub.requestContext) + StubProperties(settings, old(CustomOrEmpty()))
    {
      var props := CollectBuiltInProperties(settings);
      var custom := GetCustomProperties();
      props := props + custom;
      if props != map[] {
        if !stub.spec.bindingProvider {
          return Fail(NotCustomizable(stub.spec));
        }
        stub.requestContext := stub.requestContext + props;
      } else {
        assert stub.requestContext + props == stub.requestContext;
      }
      r := Pass;
    }

    /** What `prepare` returns or throws, from the current state. */
    function PrepareOutcome(): Outcome<Thrown>
      reads this
    {
      match serviceInterface
      case None => Fail(MissingServiceInterface)
      case Some(iface) =>
        match ServiceToUse()
        case Failure(e) => Fail(e)
        case Success(service) =>
          match LookupFor(LookupName(iface), iface)
          case Failure(e) => Fail(e)
          case Success(req) =>
            match service.answer(req)
            case Failure(e) => Fail(e)
            case Success(spec) => ApplyOutcome(spec, StubProperties(settings, CustomOrEmpty()))
    }

    /**
     * What `prepare` changes. Without a service interface, or when no service
     * can be had, nothing. Otherwise `portQName` is overwritten first; the
     * port is looked up (unless a feature fails to convert); if a stub comes
     * back, the custom property map is created if absent; and only a stub
     * that has been fully configured is committed, so every failure leaves
     * `portStub` as it was.
     */
    twostate predicate PrepareEffect()
      reads this, UsedServices(), if portStub.Some? then {portStub.value} else {}
    {
      match old(serviceInterface)
      case None =>
        && portQName == old(portQName) && portStub == old(portStub) && customProperties == old(customProperties)
        && (forall s :: s in UsedServices() ==> s.requests == old(s.requests))
      case Some(iface) =>
        match ServiceToUse()
        case Failure(_) =>
          portQName == old(portQName) && portStub == old(portStub) && customProperties == old(customProperties)
        case Success(service) =>
          && portQName == Some(PortQNameFor(iface))
          && match LookupFor(LookupName(iface), iface)
             case Failure(_) =>
               service.requests == old(service.requests)
               && portStub == old(portStub) && customProperties == old(customProperties)
             case Success(req) =>
               && service.requests == old(service.requests) + [req]
               && match service.answer(req)
                  case Failure(_) => portStub == old(portStub) && customProperties == old(customProperties)
                  case Success(spec) =>
                    && customProperties == Some(old(CustomOrEmpty()))
                    && if old(PrepareOutcome()).Fail? then portStub == old(portStub)
                       else
                         && portStub.Some? && fresh(portStub.value) && portStub.value.spec == spec
                         && portStub.value.requestContext == spec.initialContext + StubProperties(settings, old(CustomOrEmpty()))
    }

    /** `prepare`: obtains and configures the port stub, committing it as the last step. */
    method Prepare() returns (r: Outcome<Thrown>)
      requires Valid()
      modifies this`portQName, this`portStub, this`customProperties, UsedServices()
      ensures Valid()
      ensures r == old(PrepareOutcome())
      ensures PrepareEffect()
    {
      if serviceInterface.None? {
        return Fail(MissingServiceInterface);
      }
      var iface := serviceInterface.value;
      var serviceToUse: Service;
      if jaxWsService.Some? {
        serviceToUse := jaxWsService.value;
      } else {
        var created := factory.created;
        if created.Failure? {
          return Fail(created.error);
        }
        serviceToUse := created.value;
      }
      portQName := Some(PortQNameFor(iface));
      var lookup := GetPortStub(serviceToUse, if portName.Some? then portQName else None);
      if lookup.Failure? {
        return Fail(lookup.error);
      }
      var stub := lookup.value;
      r := PreparePortStub(stub);
      if r.Fail? {
        return;
      }
      portStub := Some(stub);
    }

    /** The text a `toString` call on the proxy returns. */
    function Description(): string {
      "JAX-WS proxy for port [" + JavaString(portName) + "] of service [" + JavaString(factory.serviceName) + "]"
    }

    /** `method.invoke(portStub, arguments)`: a null stub makes the call throw a `NullPointerException`. */
    function ReflectiveCall(inv: Invocation, stub: Option<Stub>): Result<Value, Thrown> {
      match stub
      case None => Failure(Thrown(NullPointerException, "", None))
      case Some(s) => s.spec.dispatch(inv.target, inv.arguments)
    }

    /**
     * `doInvoke(MethodInvocation)` on the current stub: the stub's answer,
     * or its failure translated; a stub that throws an exception of its own
     * has it classified by the web service catch clauses, and no web
     * service exception escapes.
     */
    function DoInvoke(inv: Invocation): (r: Result<Value, Thrown>)
      reads this
      ensures ReflectiveCall(inv, portStub).Success? ==> r == ReflectiveCall(inv, portStub)
      ensures portStub.None? ==>
                r == Failure(Wrap(RemoteProxyFailureException, inv.target.name, Thrown(NullPointerException, "", None)))
      ensures ReflectiveCall(inv, portStub).Failure?
              && ReflectiveCall(inv, portStub).error.kind == InvocationTargetException
              && ReflectiveCall(inv, portStub).error.cause.Some? ==>
                r == Failure(TranslateWebServiceFailure(ReflectiveCall(inv, portStub).error.cause.value,
                                                        settings.endpointAddress))
      ensures ReflectiveCall(inv, portStub).Failure?
              && ReflectiveCall(inv, portStub).error.kind == InvocationTargetException
              && ReflectiveCall(inv, portStub).error.cause.None? ==>
                r.Failure? && r.error.kind == NullPointerException
      ensures ReflectiveCall(inv, portStub).Failure?
              && ReflectiveCall(inv, portStub).error.kind != InvocationTargetException ==>
                r == Failure(Wrap(RemoteProxyFailureException, inv.target.name, ReflectiveCall(inv, portStub).error))
      ensures r.Failure? ==> !IsA(r.error.kind, WebServiceException)
    {
      InvocationFailureTaxonomy(ReflectiveCall(inv, portStub), inv.target, settings.endpointAddress);
      TranslateInvocation(ReflectiveCall(inv, portStub), inv.target, settings.endpointAddress)
    }

    /**
     * `invoke`: `toString` is answered locally without preparing or touching
     * the stub; any other call prepares first if no stub is committed (a
     * failing `prepare` is the call's failure) and then is dispatched to the
     * committed stub.
     */
    method Invoke(inv: Invocation) returns (r: Result<Value, Thrown>)
      requires Valid()
      modifies this`portQName, this`portStub, this`customProperties, UsedServices()
      ensures Valid()
      ensures IsToStringMethod(inv.target) ==>
                r == Success(Str(Description())) && unchanged(this) && unchanged(UsedServices())
      ensures !IsToStringMethod(inv.target) && old(IsPrepared()) ==>
                unchanged(this) && unchanged(UsedServices()) && r == DoInvoke(inv)
      ensures !IsToStringMethod(inv.target) && !old(IsPrepared()) ==>
                && PrepareEffect()
                && (old(PrepareOutcome()).Fail? ==> r == Failure(old(PrepareOutcome()).error))
                && (old(PrepareOutcome()).Pass? ==> IsPrepared() && r == DoInvoke(inv))
    {
      if IsToStringMethod(inv.target) {
        return Success(Str(Description()));
      }
      if !IsPrepared() {
        var p := Prepare();
        if p.Fail? {
          return Failure(p.error);
        }
      }
      r := DoInvoke(inv);
    }
  }
}
