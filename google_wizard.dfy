/** The Google identity provider create wizard: the name check, the form's required fields and the render guard. */
module GoogleWizard {
  import opened Wrappers
  import opened IdpModels

  /** The wizard's form values; a missing field is `None`. */
  datatype FormValues = FormValues(name: Option<string>, clientId: Option<string>, clientSecret: Option<string>, callbackUrl: Option<string>)

  /** The duplicate-name message, the only error the name field's check gives. */
  datatype NameError = DuplicateName

  /** The form's initial values: only the template's provider name. */
  function InitialValues(template: Option<Template>): (v: FormValues)
    ensures v.name == TemplateIdpName(template)
    ensures v.clientId.None? && v.clientSecret.None? && v.callbackUrl.None?
  {
    FormValues(TemplateIdpName(template), None, None, None)
  }

  /** `validate` of the wizard page: an error key for every falsy required field. */
  function Validate(values: FormValues): (errors: set<string>)
    ensures "name" in errors <==> !Truthy(values.name)
    ensures "clientId" in errors <==> !Truthy(values.clientId)
    ensures "clientSecret" in errors <==> !Truthy(values.clientSecret)
    ensures errors <= {"name", "clientId", "clientSecret"}
  {
    (if !Truthy(values.name) then {"name"} else {})
      + (if !Truthy(values.clientId) then {"clientId"} else {})
      + (if !Truthy(values.clientSecret) then {"clientSecret"} else {})
  }

  /** With the three required fields filled in, the page has no errors. */
  lemma ValidateFilledForm(values: FormValues)
    requires Truthy(values.name) && Truthy(values.clientId) && Truthy(values.clientSecret)
    ensures Validate(values) == {}
  {
  }

  class GoogleWizardContent {
    var idpList: IdpList
    /** `None` stands for the initial `undefined`. */
    var isIdPListRequestLoading: Option<bool>

    constructor()
      ensures idpList == IdpList(None, []) && isIdPListRequestLoading.None?
    {
      idpList := IdpList(None, []);
      isIdPListRequestLoading := None;
    }

    /** The mount effect starts the list request. */
    method GetIdpList()
      modifies this
      ensures isIdPListRequestLoading == Some(true) && idpList == old(idpList)
    {
      isIdPListRequestLoading := Some(true);
    }

    /** The list request's outcome: a response replaces the list; an error keeps it. Loading ends either way. */
    method ReceiveIdpList(response: Option<IdpList>)
      modifies this
      ensures isIdPListRequestLoading == Some(false)
      ensures idpList == if response.Some? then response.value else old(idpList)
    {
      if response.Some? {
        idpList := response.value;
      }
      isIdPListRequestLoading := Some(false);
    }

    /** `idpNameValidation`: the duplicate message, or `undefined`. */
    method IdpNameValidation(value: string) returns (error: Option<NameError>)
      ensures error.Some? <==> NameTaken(Some(idpList), value)
    {
      var nameExist := NameExists(Some(idpList), value);
      error := if nameExist then Some(DuplicateName) else None;
    }

    /** The wizard renders only once loading is exactly false, not while it is `undefined` or true. */
    function RendersWizard(): (b: bool)
      reads this
      ensures b <==> isIdPListRequestLoading == Some(false)
    {
      isIdPListRequestLoading.Some? && !isIdPListRequestLoading.value
    }
  }
}
