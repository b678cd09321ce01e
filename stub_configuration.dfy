/**
 * The properties `preparePortStub` pushes into a port stub's request context
 * (JaxWsPortClientInterceptor.java lines 379-411): the standard
 * `javax.xml.ws.BindingProvider` keys filled from the interceptor's settings,
 * then the custom properties merged over them.
 */
module StubConfiguration {
  import opened Wrappers
  import opened JavaModel

  // The standard request-context keys of javax.xml.ws.BindingProvider.
  const UsernameProperty: string := "javax.xml.ws.security.auth.username"
  const PasswordProperty: string := "javax.xml.ws.security.auth.password"
  const EndpointAddressProperty: string := "javax.xml.ws.service.endpoint.address"
  const SessionMaintainProperty: string := "javax.xml.ws.session.maintain"
  const SoapActionUseProperty: string := "javax.xml.ws.soap.http.soapaction.use"
  const SoapActionUriProperty: string := "javax.xml.ws.soap.http.soapaction.uri"

  /** The built-in keys in the order `preparePortStub` puts them. */
  const BuiltInKeyOrder: seq<string> :=
    [UsernameProperty, PasswordProperty, EndpointAddressProperty,
     SessionMaintainProperty, SoapActionUseProperty, SoapActionUriProperty]

  /** The six standard keys are six different strings. */
  lemma BuiltInKeysDistinct()
    ensures forall i, j :: 0 <= i < j < |BuiltInKeyOrder| ==> BuiltInKeyOrder[i] != BuiltInKeyOrder[j]
  {
    assert UsernameProperty[27] != PasswordProperty[27];
    assert |UsernameProperty| == 35 && |EndpointAddressProperty| == 37 && |SessionMaintainProperty| == 29;
    assert EndpointAddressProperty[14] != SoapActionUseProperty[14];
    assert SoapActionUseProperty[35] != SoapActionUriProperty[35];
  }

  /** The interceptor's stub settings; a null string setting is `None`. */
  datatype StubSettings = StubSettings(
    username: Option<string>,
    password: Option<string>,
    endpointAddress: Option<string>,
    maintainSession: bool,
    useSoapAction: bool,
    soapActionUri: Option<string>)

  /** A string setting as a property value, when it is set. */
  function StringEntry(setting: Option<string>): Option<Value> {
    if setting.Some? then Some(Str(setting.value)) else None
  }

  /** A flag as a property value: `Boolean.TRUE` when it is on, no entry when off. */
  function FlagEntry(flag: bool): Option<Value> {
    if flag then Some(Bool(true)) else None
  }

  /**
   * The built-in entry for one key, if the settings produce one. The SOAP
   * action URI does not depend on the `useSoapAction` flag.
   */
  function BuiltInEntry(s: StubSettings, key: string): Option<Value> {
    if key == UsernameProperty then StringEntry(s.username)
    else if key == PasswordProperty then StringEntry(s.password)
    else if key == EndpointAddressProperty then StringEntry(s.endpointAddress)
    else if key == SessionMaintainProperty then FlagEntry(s.maintainSession)
    else if key == SoapActionUseProperty then FlagEntry(s.useSoapAction)
    else if key == SoapActionUriProperty then StringEntry(s.soapActionUri)
    else None
  }

  /** Each standard key gets its entry from its own setting. */
  lemma BuiltInEntryOfEachKey(s: StubSettings)
    ensures BuiltInEntry(s, UsernameProperty) == StringEntry(s.username)
    ensures BuiltInEntry(s, PasswordProperty) == StringEntry(s.password)
    ensures BuiltInEntry(s, EndpointAddressProperty) == StringEntry(s.endpointAddress)
    ensures BuiltInEntry(s, SessionMaintainProperty) == FlagEntry(s.maintainSession)
    ensures BuiltInEntry(s, SoapActionUseProperty) == FlagEntry(s.useSoapAction)
    ensures BuiltInEntry(s, SoapActionUriProperty) == StringEntry(s.soapActionUri)
  {
    BuiltInKeysDistinct();
    assert BuiltInKeyOrder[0] != BuiltInKeyOrder[1];
  }

  /** The built-in entries whose keys are among `keys`. */
  function BuiltInsAmong(s: StubSettings, keys: set<string>): map<string, Value> {
    map k | k in keys && BuiltInEntry(s, k).Some? :: BuiltInEntry(s, k).value
  }

  /** Every built-in entry the settings produce. */
  function BuiltInProperties(s: StubSettings): map<string, Value> {
    BuiltInsAmong(s, set k | k in BuiltInKeyOrder)
  }

  /** The property map: the built-in entries, with the custom properties merged over them. */
  function StubProperties(s: StubSettings, custom: map<string, Value>): map<string, Value> {
    BuiltInProperties(s) + custom
  }

  /** Adding one more key: the built-in entry for it is put, if there is one. */
  lemma BuiltInsAmongPut(s: StubSettings, keys: set<string>, k: string)
    ensures BuiltInsAmong(s, keys + {k}) ==
              if BuiltInEntry(s, k).Some? then BuiltInsAmong(s, keys)[k := BuiltInEntry(s, k).value]
              else BuiltInsAmong(s, keys)
  {
  }

  /**
   * Lines 380-402: one `put` per set string setting and per true flag, in
   * source order, into a fresh map.
   */
  method CollectBuiltInProperties(s: StubSettings) returns (props: map<string, Value>)
    ensures props == BuiltInProperties(s)
  {
    props := map[];
    ghost var keys: set<string> := {};
    assert props == BuiltInsAmong(s, keys);
    if s.username.Some? {
      props := props[UsernameProperty := Str(s.username.value)];
    }
    assert props == BuiltInsAmong(s, keys + {UsernameProperty}) by {
      BuiltInEntryOfEachKey(s);
      BuiltInsAmongPut(s, keys, UsernameProperty);
    }
    keys := keys + {UsernameProperty};
    if s.password.Some? {
      props := props[PasswordProperty := Str(s.password.value)];
    }
    assert props == BuiltInsAmong(s, keys + {PasswordProperty}) by {
      BuiltInEntryOfEachKey(s);
      BuiltInsAmongPut(s, keys, PasswordProperty);
    }
    keys := keys + {PasswordProperty};
    if s.endpointAddress.Some? {
      props := props[EndpointAddressProperty := Str(s.endpointAddress.value)];
    }
    assert props == BuiltInsAmong(s, keys + {EndpointAddressProperty}) by {
      BuiltInEntryOfEachKey(s);
      BuiltInsAmongPut(s, keys, EndpointAddressProperty);
    }
    keys := keys + {EndpointAddressProperty};
    if s.maintainSession {
      props := props[SessionMaintainProperty := Bool(true)];
    }
    assert props == BuiltInsAmong(s, keys + {SessionMaintainProperty}) by {
      BuiltInEntryOfEachKey(s);
      BuiltInsAmongPut(s, keys, SessionMaintainProperty);
    }
    keys := keys + {SessionMaintainProperty};
    if s.useSoapAction {
      props := props[SoapActionUseProperty := Bool(true)];
    }
    assert props == BuiltInsAmong(s, keys + {SoapActionUseProperty}) by {
      BuiltInEntryOfEachKey(s);
      BuiltInsAmongPut(s, keys, SoapActionUseProperty);
    }
    keys := keys + {SoapActionUseProperty};
    if s.soapActionUri.Some? {
      props := props[SoapActionUriProperty := Str(s.soapActionUri.value)];
    }
    assert props == BuiltInsAmong(s, keys + {SoapActionUriProperty}) by {
      BuiltInEntryOfEachKey(s);
      BuiltInsAmongPut(s, keys, SoapActionUriProperty);
    }
    keys := keys + {SoapActionUriProperty};
    assert keys == set k | k in BuiltInKeyOrder;
  }

  /**
   * Custom properties win: every custom entry reaches the map with its own
   * value, and a key without a custom entry carries its built-in entry, if any.
   */
  lemma StubPropertyEntries(s: StubSettings, custom: map<string, Value>, k: string)
    ensures k in custom ==> k in StubProperties(s, custom) && StubProperties(s, custom)[k] == custom[k]
    ensures k !in custom ==>
              (k in StubProperties(s, custom) <==> BuiltInEntry(s, k).Some?)
              && (k in StubProperties(s, custom) ==> StubProperties(s, custom)[k] == BuiltInEntry(s, k).value)
  {
  }

  /**
   * Which standard keys appear when no custom property overrides them: the
   * username, password, endpoint address and SOAP action URI exactly when
   * set, with their values; session-maintain and SOAP-action-use exactly
   * when their flag is true, with value `Boolean.TRUE`.
   */
  lemma BuiltInKeysAppearExactlyWhenSet(s: StubSettings, custom: map<string, Value>)
    ensures UsernameProperty !in custom ==>
              (UsernameProperty in StubProperties(s, custom) <==> s.username.Some?)
              && (s.username.Some? ==> StubProperties(s, custom)[UsernameProperty] == Str(s.username.value))
    ensures PasswordProperty !in custom ==>
              (PasswordProperty in StubProperties(s, custom) <==> s.password.Some?)
              && (s.password.Some? ==> StubProperties(s, custom)[PasswordProperty] == Str(s.password.value))
    ensures EndpointAddressProperty !in custom ==>
              (EndpointAddressProperty in StubProperties(s, custom) <==> s.endpointAddress.Some?)
              && (s.endpointAddress.Some? ==>
                    StubProperties(s, custom)[EndpointAddressProperty] == Str(s.endpointAddress.value))
    ensures SessionMaintainProperty !in custom ==>
              (SessionMaintainProperty in StubProperties(s, custom) <==> s.maintainSession)
              && (s.maintainSession ==> StubProperties(s, custom)[SessionMaintainProperty] == Bool(true))
    ensures SoapActionUseProperty !in custom ==>
              (SoapActionUseProperty in StubProperties(s, custom) <==> s.useSoapAction)
              && (s.useSoapAction ==> StubProperties(s, custom)[SoapActionUseProperty] == Bool(true))
    ensures SoapActionUriProperty !in custom ==>
              (SoapActionUriProperty in StubProperties(s, custom) <==> s.soapActionUri.Some?)
              && (s.soapActionUri.Some? ==>
                    StubProperties(s, custom)[SoapActionUriProperty] == Str(s.soapActionUri.value))
  {
    BuiltInEntryOfEachKey(s);
    StubPropertyEntries(s, custom, UsernameProperty);
    StubPropertyEntries(s, custom, PasswordProperty);
    StubPropertyEntries(s, custom, EndpointAddressProperty);
    StubPropertyEntries(s, custom, SessionMaintainProperty);
    StubPropertyEntries(s, custom, SoapActionUseProperty);
    StubPropertyEntries(s, custom, SoapActionUriProperty);
  }

  /**
   * The SOAP action URI is passed on even when `useSoapAction` is off, and
   * then without the SOAP-action-use flag.
   */
  lemma SoapActionUriWithoutUseFlag(s: StubSettings, custom: map<string, Value>)
    requires s.soapActionUri.Some? && !s.useSoapAction
    requires SoapActionUriProperty !in custom && SoapActionUseProperty !in custom
    ensures StubProperties(s, custom)[SoapActionUriProperty] == Str(s.soapActionUri.value)
    ensures SoapActionUseProperty !in StubProperties(s, custom)
  {
    BuiltInKeysAppearExactlyWhenSet(s, custom);
  }

  /**
   * The map is empty, so the stub is left alone, exactly when there are no
   * custom properties, no string setting is set and both flags are off.
   */
  lemma StubPropertiesEmptyExactly(s: StubSettings, custom: map<string, Value>)
    ensures StubProperties(s, custom) == map[] <==>
              custom == map[] && s.username.None? && s.password.None? && s.endpointAddress.None?
              && !s.maintainSession && !s.useSoapAction && s.soapActionUri.None?
  {
    if custom == map[] && s.username.None? && s.password.None? && s.endpointAddress.None?
       && !s.maintainSession && !s.useSoapAction && s.soapActionUri.None? {
      forall k | k in StubProperties(s, custom)
        ensures false
      {
        StubPropertyEntries(s, custom, k);
      }
    } else if custom != map[] {
      var k :| k in custom;
      StubPropertyEntries(s, custom, k);
    } else {
      BuiltInKeysAppearExactlyWhenSet(s, custom);
    }
  }
}
