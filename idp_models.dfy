/** The identity provider list both create wizards check a new name against. */
module IdpModels {
  import opened Wrappers

  /** An identity provider of the list; its `name` may be missing. */
  datatype IdentityProvider = IdentityProvider(name: Option<string>)

  /** The list response: `count` may be missing (the empty initial object has none). */
  datatype IdpList = IdpList(count: Option<int>, identityProviders: seq<IdentityProvider>)

  /** A value is falsy when it is missing or empty. */
  predicate Truthy(v: Option<string>)
  {
    v.Some? && v.value != ""
  }

  /**
   * The duplicate-name condition: the list's `count` is positive and some provider carries the
   * name exactly. The count is the gate, not the length of the array.
   */
  ghost predicate NameTaken(idpList: Option<IdpList>, value: string)
  {
    && idpList.Some? && idpList.value.count.Some? && idpList.value.count.value > 0
    && exists i :: 0 <= i < |idpList.value.identityProviders| && idpList.value.identityProviders[i].name == Some(value)
  }

  /** The loop of both wizards' `idpNameValidation`: `nameExist` after the pass over the providers. */
  method NameExists(idpList: Option<IdpList>, value: string) returns (nameExist: bool)
    ensures nameExist <==> NameTaken(idpList, value)
  {
    nameExist := false;
    if idpList.Some? && idpList.value.count.Some? && idpList.value.count.value > 0 {
      var providers := idpList.value.identityProviders;
      for i := 0 to |providers|
        invariant nameExist <==> exists j :: 0 <= j < i && providers[j].name == Some(value)
      {
        if providers[i].name == Some(value) {
          nameExist := true;
        }
      }
    }
  }

  /** A zero or missing count never reports a duplicate, whatever the array holds. */
  lemma CountGatesDuplicate(providers: seq<IdentityProvider>, count: Option<int>, value: string)
    requires count.None? || count.value <= 0
    ensures !NameTaken(Some(IdpList(count, providers)), value)
  {
  }

  /** The template a wizard starts from: `template?.idp?.name`. */
  datatype IdpTemplate = IdpTemplate(name: Option<string>)
  datatype Template = Template(idp: Option<IdpTemplate>)

  function TemplateIdpName(template: Option<Template>): (name: Option<string>)
    ensures name.Some? <==> template.Some? && template.value.idp.Some? && template.value.idp.value.name.Some?
    ensures name.Some? ==> name == template.value.idp.value.name
  {
    if template.Some? && template.value.idp.Some? then template.value.idp.value.name else None
  }
}
