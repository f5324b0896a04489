/** The tenant record. The Company model's own file is not part of this
    model; its attributes are the ones the droplet-installed job writes and
    the token service reads. */
module Companies {
  import opened RubyValues

  datatype Company = Company(
    id: int,
    fluidShop: Value,
    name: Value,
    fluidCompanyId: Value,
    authenticationToken: Value,
    webhookVerificationToken: Value,
    dropletInstallationUuid: Value,
    companyDropletUuid: Value,
    active: bool,
    installedCallbackIds: seq<Value>)

  /** `Company.new`, with the id the store will give it when it is first saved. */
  function NewCompany(id: int): (c: Company)
    ensures c.id == id && !c.active && c.installedCallbackIds == []
    ensures c.fluidShop == Nil && c.name == Nil && c.companyDropletUuid == Nil
  {
    Company(id, Nil, Nil, Nil, Nil, Nil, Nil, Nil, false, [])
  }
}
