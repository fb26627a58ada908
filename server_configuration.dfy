/**
 * The server configuration extension's password-history connector: its properties become two
 * form values, and the submitted form becomes the connector's update payload. The four connectors
 * shown on the page each have a toggle property.
 */
module ServerConfiguration {
  import opened Wrappers
  import opened Strings

  /** A property of a governance connector. */
  datatype ConnectorProperty = ConnectorProperty(name: string, value: string)

  /** A form value: a text, a number (`None` is NaN) or a flag. */
  datatype FormValue = Text(s: string) | Number(n: Option<int>) | Flag(b: bool)

  /** A form's values by field name. */
  type Form = map<string, FormValue>

  const EnableProperty := "passwordHistory.enable"
  const CountProperty := "passwordHistory.count"
  const CountField := "passwordHistoryCount"
  const EnabledField := "passwordHistoryCountEnabled"

  /** `i` is the first index of a property called `name`. */
  predicate IsFirstNamed(properties: seq<ConnectorProperty>, name: string, i: int)
  {
    0 <= i < |properties| && properties[i].name == name && forall j :: 0 <= j < i ==> properties[j].name != name
  }

  /** `properties.filter(p => p.name === name)[0].value`; `None` where `[0]` is `undefined` and reading it throws. */
  function FirstValue(properties: seq<ConnectorProperty>, name: string): (v: Option<string>)
    ensures v.None? <==> forall i :: 0 <= i < |properties| ==> properties[i].name != name
    ensures v.Some? ==> exists i :: IsFirstNamed(properties, name, i) && properties[i].value == v.value
  {
    if properties == [] then None
    else if properties[0].name == name then Some(properties[0].value)
    else
      var v := FirstValue(properties[1..], name);
      assert forall i :: 0 <= i < |properties| - 1 ==> properties[1..][i] == properties[i + 1];
      assert v.Some? ==> forall i :: IsFirstNamed(properties[1..], name, i) ==> IsFirstNamed(properties, name, i + 1);
      v
  }

  /**
   * What `processInitialValues` leaves: the flag handed to `setPasswordHistoryEnabled` (`None` when
   * the call is never reached) and the returned form values (`None` when the function throws).
   */
  datatype InitialValues = InitialValues(enabledCallback: Option<bool>, values: Option<Form>)

  /**
   * `processInitialValues`: enabled iff the first enable property is exactly "true", and the
   * count is the integer parse of the first count property. Without an enable property the first
   * read throws and nothing happens; without a count property the callback has already been called
   * when the second read throws. The other initial values are kept.
   */
  function ProcessInitialValues(initialValues: Form, properties: seq<ConnectorProperty>): (r: InitialValues)
    ensures r.enabledCallback.Some? <==> FirstValue(properties, EnableProperty).Some?
    ensures r.enabledCallback.Some? ==> r.enabledCallback.value == (FirstValue(properties, EnableProperty).value == "true")
    ensures r.values.Some? <==> FirstValue(properties, EnableProperty).Some? && FirstValue(properties, CountProperty).Some?
    ensures r.values.Some? ==>
      && EnabledField in r.values.value && CountField in r.values.value
      && r.values.value[EnabledField] == Flag(r.enabledCallback.value)
      && r.values.value[CountField] == Number(ParseInt(FirstValue(properties, CountProperty).value))
      && (forall k :: k != CountField && k != EnabledField ==>
            (k in r.values.value <==> k in initialValues) && (k in initialValues ==> r.values.value[k] == initialValues[k]))
  {
    var enable := FirstValue(properties, EnableProperty);
    var count := FirstValue(properties, CountProperty);
    if enable.None? then InitialValues(None, None)
    else
      var isEnabled := enable.value == "true";
      if count.None? then InitialValues(Some(isEnabled), None)
      else InitialValues(Some(isEnabled), Some(initialValues[CountField := Number(ParseInt(count.value))][EnabledField := Flag(isEnabled)]))
  }

  /** `parseInt(v as string)`: a number goes through its string form, anything else is NaN. */
  function ParseFormValue(v: Option<FormValue>): Option<int>
  {
    match v
    case Some(Text(s)) => ParseInt(s)
    case Some(Number(n)) => n
    case _ => None
  }

  /** `parseInt` of a number's string form gives the number back. */
  lemma ParseNumberValue(n: int)
    ensures ParseFormValue(Some(Number(Some(n)))) == ParseInt(IntToString(n))
  {
    ParseIntOfIntToString(n);
  }

  function Get(data: Form, key: string): Option<FormValue>
  {
    if key in data then Some(data[key]) else None
  }

  /** The enabled flag as read from the form: `None` for `undefined`. */
  function EnabledOf(v: Option<FormValue>): Option<bool>
  {
    match v
    case Some(Flag(b)) => Some(b)
    case _ => None
  }

  /** A count of 0 is sent as 1 while the history is enabled. */
  function ClampCount(count: Option<int>, enabled: Option<bool>): (c: Option<int>)
    ensures enabled == Some(true) && count == Some(0) ==> c == Some(1)
    ensures !(enabled == Some(true) && count == Some(0)) ==> c == count
  {
    if enabled == Some(true) && count == Some(0) then Some(1) else count
  }

  /** A property of the update payload; `None` stands for an `undefined` value. */
  datatype UpdateProperty = UpdateProperty(name: string, value: Option<string>)

  datatype UpdateConnectorPayload = UpdateConnectorPayload(operation: string, properties: seq<UpdateProperty>)

  /** `toString` of a number (NaN gives "NaN") and `?.toString()` of a flag. */
  function CountString(count: Option<int>): string
  {
    if count.Some? then IntToString(count.value) else "NaN"
  }

  function FlagString(b: Option<bool>): Option<string>
  {
    if b.Some? then Some(if b.value then "true" else "false") else None
  }

  /** What `processPasswordCountSubmitData` leaves: the payload it sends and the data without the two fields. */
  datatype SubmitResult = SubmitResult(payload: UpdateConnectorPayload, data: Form)

  /**
   * `processPasswordCountSubmitData`: the two fields are deleted from the data, and the payload
   * is an "UPDATE" of the count and then the enable property, each as its string form.
   */
  function ProcessPasswordCountSubmitData(data: Form): (r: SubmitResult)
    ensures r.data == data - {CountField, EnabledField}
    ensures r.payload.operation == "UPDATE" && |r.payload.properties| == 2
    ensures r.payload.properties[0].name == CountProperty && r.payload.properties[1].name == EnableProperty
    ensures r.payload.properties[0].value == Some(CountString(ClampCount(ParseFormValue(Get(data, CountField)), EnabledOf(Get(data, EnabledField)))))
    ensures r.payload.properties[1].value == FlagString(EnabledOf(Get(data, EnabledField)))
  {
    var enabled := EnabledOf(Get(data, EnabledField));
    var count := ClampCount(ParseFormValue(Get(data, CountField)), enabled);
    SubmitResult(
      UpdateConnectorPayload("UPDATE", [
        UpdateProperty(CountProperty, Some(CountString(count))),
        UpdateProperty(EnableProperty, FlagString(enabled))]),
      data - {CountField, EnabledField})
  }

  /**
   * Submitting the form the connector's properties set up, unedited, sends back the same count
   * (1 for an enabled 0) and "true" or "false" for the enable flag, and leaves the other values.
   */
  lemma SubmitInitialValues(initialValues: Form, properties: seq<ConnectorProperty>, n: int)
    requires FirstValue(properties, EnableProperty).Some?
    requires FirstValue(properties, CountProperty).Some? && ParseInt(FirstValue(properties, CountProperty).value) == Some(n)
    ensures var iv := ProcessInitialValues(initialValues, properties);
      var enabled := iv.enabledCallback.value;
      var r := ProcessPasswordCountSubmitData(iv.values.value);
      && r.payload.properties[0].value == Some(IntToString(if enabled && n == 0 then 1 else n))
      && r.payload.properties[1].value == Some(if enabled then "true" else "false")
      && r.data == initialValues - {CountField, EnabledField}
  {
    var iv := ProcessInitialValues(initialValues, properties);
    var values, enabled := iv.values.value, iv.enabledCallback.value;
    var r := ProcessPasswordCountSubmitData(values);
    assert Get(values, EnabledField) == Some(Flag(enabled));
    assert Get(values, CountField) == Some(Number(Some(n)));
    UpdateThenRemove(initialValues, Number(ParseInt(FirstValue(properties, CountProperty).value)), Flag(enabled));
  }

  /** Deleting the two fields undoes setting them. */
  lemma UpdateThenRemove(m: Form, count: FormValue, flag: FormValue)
    ensures m[CountField := count][EnabledField := flag] - {CountField, EnabledField} == m - {CountField, EnabledField}
  {
  }

  /** The connectors the page shows. */
  const ConnectorsToShow := ["account-recovery", "account.lock.handler", "self-sign-up", "sso.login.recaptcha"]

  /**
   * `connectorToggleName`: each shown connector's toggle property. The property names are
   * constants of the server configurations feature and are parameters here.
   */
  function ConnectorToggleNames(
    passwordRecoveryNotificationBasedEnable: string, accountLockEnable: string,
    selfRegistrationEnable: string, reCaptchaAlwaysEnable: string): (m: map<string, string>)
    ensures m.Keys == set c | c in ConnectorsToShow
    ensures m[ConnectorsToShow[0]] == passwordRecoveryNotificationBasedEnable
    ensures m[ConnectorsToShow[1]] == accountLockEnable
    ensures m[ConnectorsToShow[2]] == selfRegistrationEnable
    ensures m[ConnectorsToShow[3]] == reCaptchaAlwaysEnable
  {
    map[
      "account-recovery" := passwordRecoveryNotificationBasedEnable,
      "account.lock.handler" := accountLockEnable,
      "self-sign-up" := selfRegistrationEnable,
      "sso.login.recaptcha" := reCaptchaAlwaysEnable]
  }

  /** `connectorToggleName[connector.name]`: `None` for a connector that is not shown. */
  function ToggleNameOf(toggleNames: map<string, string>, connectorName: string): Option<string>
  {
    if connectorName in toggleNames then Some(toggleNames[connectorName]) else None
  }

  /** Every shown connector has a toggle name, and only shown connectors do. */
  lemma ToggleNamesCoverShownConnectors(a: string, b: string, c: string, d: string, connectorName: string)
    ensures ToggleNameOf(ConnectorToggleNames(a, b, c, d), connectorName).Some? <==> connectorName in ConnectorsToShow
  {
  }
}
