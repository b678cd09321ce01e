/**
 * The exception classes that the port client interceptor throws or catches,
 * with their superclass chain, and the rule by which a `try` statement picks
 * the catch clause that handles a thrown object.
 */
module Throwables {
  import opened Wrappers

  /**
   * Java exception classes. Intermediate library classes that no catch clause
   * or `instanceof` test of the interceptor names (`NestedRuntimeException`,
   * `BeansException`, `ReflectiveOperationException`, ...) are collapsed into
   * their nearest named ancestor.
   */
  datatype ExceptionType =
    | Throwable
    | Error
    | Exception
    | RuntimeException
    /** A checked exception declared by the service interface's methods. */
    | ApplicationException
    | InvocationTargetException
    | IllegalArgumentException
    | NullPointerException
    | ClassCastException
    | BeanInstantiationException
    // javax.xml.ws
    | WebServiceException
    | ProtocolException
    | SOAPFaultException
    | HTTPException
    // org.springframework.remoting
    | RemoteAccessException
    | RemoteConnectFailureException
    | RemoteLookupFailureException
    | RemoteProxyFailureException
    | RemoteInvocationFailureException
    | SoapFaultException
    | JaxWsSoapFaultException

  /** Distance from `Throwable` in the class hierarchy. */
  function Depth(t: ExceptionType): nat {
    match t
    case Throwable => 0
    case Error | Exception => 1
    case RuntimeException | ApplicationException | InvocationTargetException => 2
    case IllegalArgumentException | NullPointerException | ClassCastException
      | BeanInstantiationException | WebServiceException | RemoteAccessException => 3
    case ProtocolException | RemoteConnectFailureException | RemoteLookupFailureException
      | RemoteProxyFailureException | RemoteInvocationFailureException => 4
    case SOAPFaultException | HTTPException | SoapFaultException => 5
    case JaxWsSoapFaultException => 6
  }

  /** The direct superclass; only `Throwable` has none. */
  function Super(t: ExceptionType): (s: Option<ExceptionType>)
    ensures s.None? <==> t == Throwable
    ensures s.Some? ==> Depth(s.value) + 1 == Depth(t)
  {
    match t
    case Throwable => None
    case Error | Exception => Some(Throwable)
    case RuntimeException | ApplicationException | InvocationTargetException => Some(Exception)
    case IllegalArgumentException | NullPointerException | ClassCastException
      | BeanInstantiationException | WebServiceException | RemoteAccessException => Some(RuntimeException)
    case ProtocolException => Some(WebServiceException)
    case SOAPFaultException | HTTPException => Some(ProtocolException)
    case RemoteConnectFailureException | RemoteLookupFailureException
      | RemoteProxyFailureException | RemoteInvocationFailureException => Some(RemoteAccessException)
    case SoapFaultException => Some(RemoteInvocationFailureException)
    case JaxWsSoapFaultException => Some(SoapFaultException)
  }

  /** `t` is `u` or a subclass of `u`: an object of class `t` is `instanceof u`. */
  predicate IsA(t: ExceptionType, u: ExceptionType)
    decreases Depth(t)
  {
    t == u || (Super(t).Some? && IsA(Super(t).value, u))
  }

  /** A thrown object: its class, the text its message names, and its cause. */
  datatype Thrown = Thrown(kind: ExceptionType, detail: string, cause: Option<Thrown>)

  /** An exception of class `kind` wrapping `cause`, as `new X(message, cause)` builds it. */
  function Wrap(kind: ExceptionType, detail: string, cause: Thrown): Thrown
  {
    Thrown(kind, detail, Some(cause))
  }

  /** Every class is a subclass of `Throwable`, so `catch (Throwable ex)` catches everything. */
  lemma {:induction false} EverythingIsThrowable(t: ExceptionType)
    ensures IsA(t, Throwable)
    decreases Depth(t)
  {
    if t != Throwable {
      EverythingIsThrowable(Super(t).value);
    }
  }

  /** Subclassing is transitive. */
  lemma {:induction false} IsATransitive(t: ExceptionType, u: ExceptionType, v: ExceptionType)
    requires IsA(t, u) && IsA(u, v)
    ensures IsA(t, v)
    decreases Depth(t)
  {
    if t != u {
      IsATransitive(Super(t).value, u, v);
    }
  }

  /** A subclass is never shallower than its superclass, so the hierarchy has no cycles. */
  lemma {:induction false} IsADeepens(t: ExceptionType, u: ExceptionType)
    requires IsA(t, u)
    ensures Depth(u) <= Depth(t)
    ensures Depth(u) == Depth(t) ==> t == u
    decreases Depth(t)
  {
    if t != u {
      IsADeepens(Super(t).value, u);
    }
  }

  /**
   * The catch clause of a `try` statement that handles an object of class
   * `t`: the first clause, in source order, whose class `t` is an instance
   * of; `|handlers|` when no clause matches and the object propagates.
   */
  function FirstHandler(t: ExceptionType, handlers: seq<ExceptionType>): (i: nat)
    ensures i <= |handlers|
    ensures i < |handlers| ==> IsA(t, handlers[i])
    ensures forall j :: 0 <= j < i ==> !IsA(t, handlers[j])
  {
    if handlers == [] then 0
    else if IsA(t, handlers[0]) then 0
    else 1 + FirstHandler(t, handlers[1..])
  }
}
