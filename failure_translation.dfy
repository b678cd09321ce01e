/**
 * The two catch blocks of the interceptor's `doInvoke` overloads
 * (JaxWsPortClientInterceptor.java, lines 443-479), as functions on the
 * thrown object:
 *  - the reflective call onto the stub unwraps one `InvocationTargetException`
 *    and turns every other failure into a `RemoteProxyFailureException`;
 *  - what that throws is then sorted into Spring's remote-access exceptions
 *    by three catch clauses in the order SOAP fault, protocol, web service.
 */
module FailureTranslation {
  import opened Wrappers
  import opened JavaModel
  import opened Throwables

  /** The catch clauses of `doInvoke(MethodInvocation)`, in source order. */
  const WebServiceHandlers: seq<ExceptionType> := [SOAPFaultException, ProtocolException, WebServiceException]

  /** The catch clauses of `doInvoke(MethodInvocation, Object)`, in source order. */
  const DispatchHandlers: seq<ExceptionType> := [InvocationTargetException, Throwable]

  /** The subtype chain SOAPFaultException < ProtocolException < WebServiceException, seen from any class. */
  lemma SubtypeChain(t: ExceptionType)
    ensures IsA(t, SOAPFaultException) ==> IsA(t, ProtocolException)
    ensures IsA(t, ProtocolException) ==> IsA(t, WebServiceException)
  {
    assert IsA(SOAPFaultException, ProtocolException);
    assert IsA(ProtocolException, WebServiceException);
    if IsA(t, SOAPFaultException) {
      IsATransitive(t, SOAPFaultException, ProtocolException);
    }
    if IsA(t, ProtocolException) {
      IsATransitive(t, ProtocolException, WebServiceException);
    }
  }

  /** `InvocationTargetException` has no subclasses here. */
  lemma {:induction false} OnlyInvocationTargetIsInvocationTarget(t: ExceptionType)
    ensures IsA(t, InvocationTargetException) <==> t == InvocationTargetException
    decreases Depth(t)
  {
    if t != InvocationTargetException && t != Throwable {
      assert Super(t).value != InvocationTargetException;
      OnlyInvocationTargetIsInvocationTarget(Super(t).value);
    }
  }

  /** Two superclasses of one class lie on one chain (single inheritance). */
  lemma {:induction false} AncestorsAreComparable(t: ExceptionType, u: ExceptionType, v: ExceptionType)
    requires IsA(t, u) && IsA(t, v)
    ensures IsA(u, v) || IsA(v, u)
    decreases Depth(t)
  {
    if t != u && t != v {
      AncestorsAreComparable(Super(t).value, u, v);
    }
  }

  /** Spring's remote-access exceptions and JAX-WS's web service exceptions are disjoint families. */
  lemma RemoteAccessIsNotWebService(t: ExceptionType)
    requires IsA(t, RemoteAccessException)
    ensures !IsA(t, WebServiceException)
  {
    assert !IsA(RemoteAccessException, WebServiceException) by {
      if IsA(RemoteAccessException, WebServiceException) {
        IsADeepens(RemoteAccessException, WebServiceException);
      }
    }
    assert !IsA(WebServiceException, RemoteAccessException) by {
      if IsA(WebServiceException, RemoteAccessException) {
        IsADeepens(WebServiceException, RemoteAccessException);
      }
    }
    if IsA(t, WebServiceException) {
      AncestorsAreComparable(t, RemoteAccessException, WebServiceException);
    }
  }

  /**
   * The catch blocks of `doInvoke(MethodInvocation)`: a SOAP fault becomes a
   * `JaxWsSoapFaultException`, any other protocol exception a
   * `RemoteConnectFailureException`, any other web service exception a
   * `RemoteAccessException`, each wrapping the original; the messages of the
   * last two name the endpoint address. Anything else propagates unchanged.
   */
  function TranslateWebServiceFailure(ex: Thrown, endpointAddress: Option<string>): (r: Thrown)
    ensures IsA(ex.kind, SOAPFaultException) ==> r == Wrap(JaxWsSoapFaultException, ex.detail, ex)
    ensures IsA(ex.kind, ProtocolException) && !IsA(ex.kind, SOAPFaultException)
            ==> r == Wrap(RemoteConnectFailureException, JavaString(endpointAddress), ex)
    ensures IsA(ex.kind, WebServiceException) && !IsA(ex.kind, ProtocolException)
            ==> r == Wrap(RemoteAccessException, JavaString(endpointAddress), ex)
    ensures !IsA(ex.kind, WebServiceException) ==> r == ex
  {
    SubtypeChain(ex.kind);
    var i := FirstHandler(ex.kind, WebServiceHandlers);
    if i == 0 then Wrap(JaxWsSoapFaultException, ex.detail, ex)
    else if i == 1 then Wrap(RemoteConnectFailureException, JavaString(endpointAddress), ex)
    else if i == 2 then Wrap(RemoteAccessException, JavaString(endpointAddress), ex)
    else ex
  }

  /**
   * The catch blocks of `doInvoke(MethodInvocation, Object)` around
   * `method.invoke`: an `InvocationTargetException` is unwrapped exactly once
   * (`throw` of a null target raises a `NullPointerException`); anything else
   * becomes a `RemoteProxyFailureException` naming the method and wrapping
   * the original.
   */
  function UnwrapDispatchFailure(ex: Thrown, m: MethodRef): (r: Thrown)
    ensures ex.kind == InvocationTargetException && ex.cause.Some? ==> r == ex.cause.value
    ensures ex.kind == InvocationTargetException && ex.cause.None? ==> r.kind == NullPointerException
    ensures ex.kind != InvocationTargetException ==> r == Wrap(RemoteProxyFailureException, m.name, ex)
  {
    OnlyInvocationTargetIsInvocationTarget(ex.kind);
    EverythingIsThrowable(ex.kind);
    if FirstHandler(ex.kind, DispatchHandlers) == 0 then
      match ex.cause
      case Some(target) => target
      case None => Thrown(NullPointerException, "", None)
    else
      Wrap(RemoteProxyFailureException, m.name, ex)
  }

  /**
   * What `doInvoke(MethodInvocation)` returns or throws, given what the
   * reflective `method.invoke` call on the stub returned or threw.
   */
  function TranslateInvocation(raw: Result<Value, Thrown>, m: MethodRef, endpointAddress: Option<string>)
    : (r: Result<Value, Thrown>)
  {
    match raw
    case Success(v) => Success(v)
    case Failure(ex) => Failure(TranslateWebServiceFailure(UnwrapDispatchFailure(ex, m), endpointAddress))
  }

  /**
   * The catch order matters and is right: each clause handles its own class
   * (none is shadowed by an earlier, more general one), whereas with the
   * general clause first a SOAP fault would be taken for a plain web service
   * failure.
   */
  lemma CatchOrderIsMostSpecificFirst()
    ensures forall j :: 0 <= j < |WebServiceHandlers| ==>
              FirstHandler(WebServiceHandlers[j], WebServiceHandlers) == j
    ensures FirstHandler(SOAPFaultException, [WebServiceException, ProtocolException, SOAPFaultException]) == 0
  {
    assert !IsA(ProtocolException, SOAPFaultException) by {
      if IsA(ProtocolException, SOAPFaultException) {
        IsADeepens(ProtocolException, SOAPFaultException);
      }
    }
    assert !IsA(WebServiceException, ProtocolException) by {
      if IsA(WebServiceException, ProtocolException) {
        IsADeepens(WebServiceException, ProtocolException);
      }
    }
    assert !IsA(WebServiceException, SOAPFaultException) by {
      if IsA(WebServiceException, SOAPFaultException) {
        IsADeepens(WebServiceException, SOAPFaultException);
      }
    }
    SubtypeChain(SOAPFaultException);
  }

  /** The exceptions the interceptor wraps failures in are all Spring remote-access exceptions. */
  lemma TranslatedKindsAreRemoteAccess()
    ensures IsA(JaxWsSoapFaultException, RemoteAccessException)
    ensures IsA(RemoteConnectFailureException, RemoteAccessException)
    ensures IsA(RemoteProxyFailureException, RemoteAccessException)
  {
  }

  /**
   * Translation happens once: no web service exception leaves
   * `doInvoke(MethodInvocation)`, so translating again changes nothing.
   */
  lemma TranslationIsFinal(ex: Thrown, endpointAddress: Option<string>)
    ensures !IsA(TranslateWebServiceFailure(ex, endpointAddress).kind, WebServiceException)
    ensures TranslateWebServiceFailure(TranslateWebServiceFailure(ex, endpointAddress), endpointAddress)
            == TranslateWebServiceFailure(ex, endpointAddress)
  {
    var r := TranslateWebServiceFailure(ex, endpointAddress);
    if IsA(ex.kind, WebServiceException) {
      TranslatedKindsAreRemoteAccess();
      if IsA(ex.kind, SOAPFaultException) {
        assert r.kind == JaxWsSoapFaultException;
      } else if IsA(ex.kind, ProtocolException) {
        assert r.kind == RemoteConnectFailureException;
      } else {
        assert r.kind == RemoteAccessException;
      }
      RemoteAccessIsNotWebService(r.kind);
    } else {
      assert r == ex;
    }
  }

  /**
   * Every failure of `doInvoke(MethodInvocation)`: the target of an
   * `InvocationTargetException` is classified by the web service catch
   * clauses; any other failure of the reflective call becomes a
   * `RemoteProxyFailureException`, which the outer clauses do not translate
   * again, even when the failure itself was a web service exception; and no
   * web service exception escapes.
   */
  lemma InvocationFailureTaxonomy(raw: Result<Value, Thrown>, m: MethodRef, endpointAddress: Option<string>)
    ensures raw.Success? ==> TranslateInvocation(raw, m, endpointAddress) == raw
    ensures raw.Failure? && raw.error.kind == InvocationTargetException && raw.error.cause.Some? ==>
              TranslateInvocation(raw, m, endpointAddress)
              == Failure(TranslateWebServiceFailure(raw.error.cause.value, endpointAddress))
    ensures raw.Failure? && raw.error.kind == InvocationTargetException && raw.error.cause.None? ==>
              TranslateInvocation(raw, m, endpointAddress).Failure?
              && TranslateInvocation(raw, m, endpointAddress).error.kind == NullPointerException
    ensures raw.Failure? && raw.error.kind != InvocationTargetException ==>
              TranslateInvocation(raw, m, endpointAddress)
              == Failure(Wrap(RemoteProxyFailureException, m.name, raw.error))
    ensures raw.Failure? ==>
              TranslateInvocation(raw, m, endpointAddress).Failure?
              && !IsA(TranslateInvocation(raw, m, endpointAddress).error.kind, WebServiceException)
  {
    if raw.Failure? {
      var inner := UnwrapDispatchFailure(raw.error, m);
      assert TranslateInvocation(raw, m, endpointAddress) == Failure(TranslateWebServiceFailure(inner, endpointAddress));
      TranslationIsFinal(inner, endpointAddress);
      if raw.error.kind != InvocationTargetException || raw.error.cause.None? {
        DispatchFailureKindsAreNotWebService();
      }
    }
  }

  /** What the reflective call raises of its own accord is not a web service exception. */
  lemma DispatchFailureKindsAreNotWebService()
    ensures !IsA(RemoteProxyFailureException, WebServiceException)
    ensures !IsA(NullPointerException, WebServiceException)
  {
    TranslatedKindsAreRemoteAccess();
    RemoteAccessIsNotWebService(RemoteProxyFailureException);
    if IsA(NullPointerException, WebServiceException) {
      IsADeepens(NullPointerException, WebServiceException);
    }
  }
}
