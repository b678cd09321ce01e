/**
 * The plain Java values the interceptor handles: property values, qualified
 * names, classes (as far as the interceptor inspects them) and method
 * invocations.
 */
module JavaModel {
  import opened Wrappers

  /** A `java.lang.Object` as it appears in a property map or as a call's argument or result. */
  datatype Value = NullValue | Str(s: string) | Bool(b: bool) | Ref(id: nat)

  /** A `javax.xml.namespace.QName`. */
  datatype QName = QName(namespaceUri: string, localPart: string)

  /**
   * A `java.lang.Class` with the facts the interceptor and the reflection
   * utilities it calls depend on: whether it is an interface, whether its
   * default constructor can be called, and whether its instances are
   * `WebServiceFeature`s.
   */
  datatype JClass = JClass(name: string, isInterface: bool, instantiable: bool, isFeature: bool)

  /** A `java.lang.reflect.Method`: its name and the number of its parameters. */
  datatype MethodRef = MethodRef(name: string, parameterCount: nat)

  /** An AOP `MethodInvocation`: the method called on the proxy and its arguments. */
  datatype Invocation = Invocation(target: MethodRef, arguments: seq<Value>)

  /** `AopUtils.isToStringMethod`: the method is `toString()` with no parameters. */
  predicate IsToStringMethod(m: MethodRef) {
    m.name == "toString" && m.parameterCount == 0
  }

  /** Java string concatenation renders a null reference as "null". */
  function JavaString(s: Option<string>): string
  {
    s.GetOr("null")
  }
}
