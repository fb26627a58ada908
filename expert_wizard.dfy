/** The expert-mode identity provider create wizard: the name check, the form check and the loader. */
module ExpertWizard {
  import opened Wrappers
  import opened IdpModels

  datatype FormValues = FormValues(name: Option<string>, description: Option<string>)

  /** The messages the wizard's checks give. */
  datatype Message = DuplicateName | RequiredName

  /** The errors object `validateForm` returns: it always has a `name` key, `None` for `undefined`. */
  datatype FormErrors = FormErrors(name: Option<Message>)

  /** `validateForm`: only the name is required; the description is never checked. */
  function ValidateForm(values: FormValues): (errors: FormErrors)
    ensures errors.name.None? <==> Truthy(values.name)
    ensures errors.name.Some? ==> errors.name.value == RequiredName
  {
    FormErrors(if Truthy(values.name) then None else Some(RequiredName))
  }

  /** The description plays no part in the check. */
  lemma DescriptionNeverValidated(name: Option<string>, d1: Option<string>, d2: Option<string>)
    ensures ValidateForm(FormValues(name, d1)) == ValidateForm(FormValues(name, d2))
  {
  }

  /** The form's initial values: only the template's provider name. */
  function InitialValues(template: Option<Template>): (v: FormValues)
    ensures v.name == TemplateIdpName(template) && v.description.None?
  {
    FormValues(TemplateIdpName(template), None)
  }

  /** What the component renders. */
  datatype View = Loader | WizardView

  function Render(isIdPListFetchRequestLoading: bool): (v: View)
    ensures v == Loader <==> isIdPListFetchRequestLoading
  {
    if isIdPListFetchRequestLoading then Loader else WizardView
  }

  /** `idpNameValidation`: `null` unless the name is taken, then the duplicate message. */
  method IdpNameValidation(idpList: Option<IdpList>, value: string) returns (error: Option<Message>)
    ensures error.None? <==> !NameTaken(idpList, value)
    ensures error.Some? ==> error.value == DuplicateName
  {
    var nameExist := NameExists(idpList, value);
    if !nameExist {
      return None;
    }
    return Some(DuplicateName);
  }
}
