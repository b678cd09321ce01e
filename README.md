# JAX-WS port client interceptor, modelled in Dafny

This project models the core of Spring's `JaxWsPortClientInterceptor`
(`org.springframework.remoting.jaxws`), the AOP method interceptor that gives
a local service interface access to one port of a JAX-WS web service. It
looks up and configures a port stub on `prepare` (eagerly or on the first
proxied call), pushes the configured credentials, endpoint address,
session and SOAP-action settings and custom properties into the stub's
request context, dispatches every call to the stub reflectively, and turns
the JAX-WS exceptions a call raises into Spring's remote-access exceptions.

Modules, one per concern:

- `Wrappers` (`wrappers.dfy`): `Option` for nullable references, `Result` and
  `Outcome` for calls that return or throw.
- `JavaModel` (`java_model.dfy`): property values, `QName`, the facts about a
  `Class` the code inspects, methods and invocations, `isToStringMethod`.
- `Throwables` (`throwables.dfy`): the exception classes involved with their
  superclass chain (`SOAPFaultException` < `ProtocolException` <
  `WebServiceException`, and Spring's `RemoteAccessException` family), and
  Java's rule that a thrown object goes to the first catch clause whose class
  it is an instance of.
- `FailureTranslation` (`failure_translation.dfy`): the catch blocks of the two
  `doInvoke` overloads, as functions of the thrown object.
- `FeatureResolution` (`feature_resolution.dfy`): `convertWebServiceFeature`
  and its reference definition for a whole array.
- `StubConfiguration` (`stub_configuration.dfy`): the `BindingProvider`
  property keys, the property map `preparePortStub` builds, and the method
  that builds it by successive `put`s.
- `JaxWsRuntime` (`jaxws_runtime.dfy`): a `Service` class whose `GetPort`
  hands out fresh `Stub` objects and keeps a ghost record of every lookup
  made on it; a `Stub` class with a mutable request context.
- `JaxWsPortClient` (`port_client.dfy`): the interceptor as a class with the
  fields the source updates (`serviceInterface`, `customProperties`,
  `portQName`, `portStub`) and its methods.

Three behaviours of the code are easy to miss:

- The SOAP action URI is put into the request context whenever it is set,
  whether or not `useSoapAction` is on (`SoapActionUriWithoutUseFlag`).
- A failing `prepare` does not leave the interceptor exactly as it was:
  `portQName` has already been overwritten when the port lookup or the stub
  configuration fails, and the custom-property map has been created if it
  was absent once a stub came back. Only `portStub` is guaranteed to be
  unchanged (`PrepareEffect`).
- Only `toString()` is answered locally by `invoke`.

The JAX-WS runtime, reflection and class loading are oracles: a `Service`
carries a fixed function from lookup requests to stub kinds or exceptions, a
stub kind carries the request context the runtime fills in for a new stub of
that kind and a fixed function from method and arguments to what
`Method.invoke` returns or throws, and the class loader is a map from names to
classes. What `LocalJaxWsServiceFactory` contributes (`createJaxWsService`,
`getQName`, `getServiceName`) is a `ServiceFactory` value given at
construction; `LocalJaxWsServiceFactory.java` is not part of this model.

## Model

Source paths are relative to the repository root; all lines are in
`JaxWsPortClientInterceptor.java`.

| member | source | states |
|---|---|---|
| `Throwables.FirstHandler` | org.springframework.web/src/main/java/org/springframework/remoting/jaxws/JaxWsPortClientInterceptor.java:444-457 | The clause that handles a thrown object is the first one, in source order, whose class it is an instance of; no earlier clause matches; past the end means it propagates. |
| `Throwables.EverythingIsThrowable` | org.springframework.web/src/main/java/org/springframework/remoting/jaxws/JaxWsPortClientInterceptor.java:476 | Every exception class is a subclass of `Throwable`, so the last clause of the reflective call catches whatever the first did not. |
| `FailureTranslation.SubtypeChain` | org.springframework.web/src/main/java/org/springframework/remoting/jaxws/JaxWsPortClientInterceptor.java:447-457 | Any SOAP fault is a protocol exception and any protocol exception a web service exception. |
| `FailureTranslation.TranslateWebServiceFailure` | org.springframework.web/src/main/java/org/springframework/remoting/jaxws/JaxWsPortClientInterceptor.java:443-458 | A SOAP fault becomes a `JaxWsSoapFaultException`, any other protocol exception a `RemoteConnectFailureException`, any other web service exception a `RemoteAccessException`, each wrapping the original (the last two naming the endpoint address); anything else propagates unchanged. |
| `FailureTranslation.UnwrapDispatchFailure` | org.springframework.web/src/main/java/org/springframework/remoting/jaxws/JaxWsPortClientInterceptor.java:468-479 | An `InvocationTargetException` is unwrapped exactly one layer (a null target raises a `NullPointerException`); every other failure of the reflective call becomes a `RemoteProxyFailureException` naming the method and wrapping the original. |
| `FailureTranslation.CatchOrderIsMostSpecificFirst` | org.springframework.web/src/main/java/org/springframework/remoting/jaxws/JaxWsPortClientInterceptor.java:447-457 | Each of the three catch clauses handles its own class, so none is shadowed; with the general clause first, a SOAP fault would be handled as a plain web service exception. |
| `FailureTranslation.RemoteAccessIsNotWebService` | org.springframework.web/src/main/java/org/springframework/remoting/jaxws/JaxWsPortClientInterceptor.java:447-457 | No Spring remote-access exception is a web service exception, so the outer clauses never catch what the interceptor itself throws. |
| `FailureTranslation.TranslationIsFinal` | org.springframework.web/src/main/java/org/springframework/remoting/jaxws/JaxWsPortClientInterceptor.java:443-458 | No web service exception leaves the translation, and translating its result again changes nothing (no double wrapping). |
| `FailureTranslation.InvocationFailureTaxonomy` | org.springframework.web/src/main/java/org/springframework/remoting/jaxws/JaxWsPortClientInterceptor.java:443-479 | A returned value passes through; the target of an `InvocationTargetException` is classified by the web service clauses; any other dispatch failure ends as a `RemoteProxyFailureException` that the outer clauses leave alone, even when it wraps a web service exception; no web service exception escapes. |
| `FeatureResolution.ConvertFeature` | org.springframework.web/src/main/java/org/springframework/remoting/jaxws/JaxWsPortClientInterceptor.java:497-517 | A feature instance is returned as it is; a class, or a class name the loader resolves, yields a default instance exactly when it is an instantiable feature class; null, an unknown specification type and an unloadable name are `IllegalArgumentException`s, the unloadable name carried as the detail; an instantiation failure or a class that is not a feature is some other exception. |
| `FeatureResolution.ConvertAll` | org.springframework.web/src/main/java/org/springframework/remoting/jaxws/JaxWsPortClientInterceptor.java:489-492 | The array converts exactly when every entry does, into a list of the same length whose every element is the conversion of the entry at that position; otherwise the error is that of the first failing entry. |
| `FeatureResolution.ConvertAllAppend` | org.springframework.web/src/main/java/org/springframework/remoting/jaxws/JaxWsPortClientInterceptor.java:489-492 | Converting a concatenation: the first part's failure wins, then the second part's, else the two lists joined in order. |
| `StubConfiguration.BuiltInKeysDistinct` | org.springframework.web/src/main/java/org/springframework/remoting/jaxws/JaxWsPortClientInterceptor.java:383-401 | The six `BindingProvider` keys are six different strings, so the built-in puts never overwrite each other. |
| `StubConfiguration.CollectBuiltInProperties` | org.springframework.web/src/main/java/org/springframework/remoting/jaxws/JaxWsPortClientInterceptor.java:380-402 | The successive `put`s yield exactly the built-in entries the settings produce. |
| `StubConfiguration.StubPropertyEntries` | org.springframework.web/src/main/java/org/springframework/remoting/jaxws/JaxWsPortClientInterceptor.java:380-403 | Custom properties win: each custom entry reaches the map with its value; a key without one carries its built-in entry, if any, and nothing else is in the map. |
| `StubConfiguration.BuiltInKeysAppearExactlyWhenSet` | org.springframework.web/src/main/java/org/springframework/remoting/jaxws/JaxWsPortClientInterceptor.java:381-402 | Without a custom override, username, password, endpoint address and SOAP action URI appear exactly when set, with their values; session-maintain and SOAP-action-use appear exactly when their flag is true, with `Boolean.TRUE`. |
| `StubConfiguration.SoapActionUriWithoutUseFlag` | org.springframework.web/src/main/java/org/springframework/remoting/jaxws/JaxWsPortClientInterceptor.java:396-402 | The SOAP action URI is passed on even with `useSoapAction` off, and then without the use flag. |
| `StubConfiguration.StubPropertiesEmptyExactly` | org.springframework.web/src/main/java/org/springframework/remoting/jaxws/JaxWsPortClientInterceptor.java:380-404 | The map is empty, so the stub is not examined, exactly when there are no custom properties, no string setting and no flag. |
| `JaxWsRuntime.Service.GetPort` | org.springframework.web/src/main/java/org/springframework/remoting/jaxws/JaxWsPortClientInterceptor.java:364-365 | A lookup is recorded once, last, and answered with the runtime's exception or a fresh stub of the runtime's kind whose request context is the one the runtime fills in for that kind. |
| `JaxWsPortClient.PortClientInterceptor.constructor` | org.springframework.web/src/main/java/org/springframework/remoting/jaxws/JaxWsPortClientInterceptor.java:64-94 | A configured interceptor starts with no service interface and nothing prepared. |
| `JaxWsPortClient.PortClientInterceptor.SetServiceInterface` | org.springframework.web/src/main/java/org/springframework/remoting/jaxws/JaxWsPortClientInterceptor.java:268-273 | A class that is not an interface is refused with `IllegalArgumentException` and the field kept; null or an interface is stored. |
| `JaxWsPortClient.PortClientInterceptor.GetCustomProperties` | org.springframework.web/src/main/java/org/springframework/remoting/jaxws/JaxWsPortClientInterceptor.java:239-244 | Returns the custom properties, creating and storing an empty map when there is none. |
| `JaxWsPortClient.PortClientInterceptor.AddCustomProperty` | org.springframework.web/src/main/java/org/springframework/remoting/jaxws/JaxWsPortClientInterceptor.java:252-254 | The map, created if absent, afterwards maps the name to the value and is otherwise unchanged. |
| `JaxWsPortClient.PortClientInterceptor.FeaturePortStub` | org.springframework.web/src/main/java/org/springframework/remoting/jaxws/JaxWsPortClientInterceptor.java:488-495 | If any specification fails to convert, that first failure is thrown and no lookup is made; otherwise exactly one lookup is made with the converted features in input order and its answer returned. |
| `JaxWsPortClient.PortClientInterceptor.GetPortStub` | org.springframework.web/src/main/java/org/springframework/remoting/jaxws/JaxWsPortClientInterceptor.java:359-367 | With feature specifications the feature-aware lookup is made; otherwise one lookup, with the given port name or for the interface alone. |
| `JaxWsPortClient.PortClientInterceptor.PreparePortStub` | org.springframework.web/src/main/java/org/springframework/remoting/jaxws/JaxWsPortClientInterceptor.java:379-411 | The custom map is created if absent; an empty property map leaves the stub alone; a non-empty one is refused with `RemoteLookupFailureException` and nothing written when the stub is not a `BindingProvider`, and otherwise put in full into its request context. |
| `JaxWsPortClient.PortClientInterceptor.Prepare` | org.springframework.web/src/main/java/org/springframework/remoting/jaxws/JaxWsPortClientInterceptor.java:319-331 | No service interface fails with `IllegalArgumentException` before any field changes; `portQName` comes from the port name if set, else the interface name, and is overwritten before the lookup; an explicit name is looked up only when a port name is set; `portStub` is assigned only to a stub that was obtained and configured, its request context being what the runtime filled in overlaid with the property map, so every failure leaves it unchanged. |
| `JaxWsPortClient.PortClientInterceptor.IsPrepared` | org.springframework.web/src/main/java/org/springframework/remoting/jaxws/JaxWsPortClientInterceptor.java:337-341 | True exactly when a stub has been committed; a committed stub always comes with a port QName (not necessarily the one it was looked up for, since a later failed `prepare` overwrites `portQName` and keeps the stub). |
| `JaxWsPortClient.PortClientInterceptor.DoInvoke` | org.springframework.web/src/main/java/org/springframework/remoting/jaxws/JaxWsPortClientInterceptor.java:443-479 | The stub's answer is returned; the exception the stub's method throws is classified by the web service clauses (a null target becomes a `NullPointerException`); any other failure of the reflective call, a missing stub included, ends as a `RemoteProxyFailureException` naming the method and wrapping that failure; no web service exception escapes. |
| `JaxWsPortClient.PortClientInterceptor.Invoke` | org.springframework.web/src/main/java/org/springframework/remoting/jaxws/JaxWsPortClientInterceptor.java:422-433 | `toString()` returns the description and changes nothing; any other call on a prepared interceptor dispatches without preparing; on an unprepared one it prepares first, fails with `prepare`'s exception if that fails, and otherwise dispatches with `isPrepared()` true. |

## Left out

- The `synchronized` blocks on the preparation monitor: the model is sequential and says nothing about thread safety.
- `afterPropertiesSet` and `lookupServiceOnStartup` (eager preparation is a call of `Prepare`), `setBeanClassLoader`, and the plain setters and getters: the settings they hold are constants fixed by the constructor.
- `LocalJaxWsServiceFactory` (`createJaxWsService`, `getQName`, `getServiceName`) is not part of this model: its results are given as a `ServiceFactory` value.
- `Service.getPort`, `Method.invoke`, `ClassLoader.loadClass` and `BeanUtils.instantiate` are oracles; `loadClass` fails only by not knowing the name, and every way `BeanUtils.instantiate` can fail is one `BeanInstantiationException`.
- Exception messages: a modelled exception keeps only the thing its message names (endpoint address, method name, class name, unloadable class name).
- Intermediate library exception classes that the code never names (`NestedRuntimeException`, `BeansException`, `ReflectiveOperationException`) are collapsed into their nearest named ancestor.
- `JaxWsPortClient.PortClientInterceptor.GetCustomProperties`: the returned map is a value, so a caller's later changes to it reach the interceptor only through `AddCustomProperty`; aliasing of the returned map is not modelled.
- A `null` key in the custom property map is not modelled: keys are strings.
- `JaxWsPortClient.PortClientInterceptor.GetPortStub` and `JaxWsPortClient.PortClientInterceptor.FeaturePortStub` require a service interface, which `prepare` has checked before calling them; called without one, the source would pass `null` to `getPort`.
- `JaxWsRuntime.Service.GetPort` and `createJaxWsService` answer by a fixed function of the request, so a `prepare` that failed fails again the same way when retried with the same settings; a target server that comes up later, which lazy preparation with `lookupServiceOnStartup` off allows for, is not modelled.
- Each successful lookup yields a new stub object; a runtime that hands out one shared stub for several lookups is not modelled.
- A stub's answer to a call is a fixed function of method and arguments; remote nondeterminism is not modelled.
- `EclipseLinkEntityManagerFactoryBuilderIntegrationTests.java` is an integration test of another module with no logic of this component.
