/** The licence status the handlers ask the vendor service for, and the test
    they gate premium features with. The vendor call itself is not modelled:
    its answer is an input of every handler that checks it. */
module Licence {
  /** The system types and the status value the gate compares against. */
  const SystemTypeProfessional := "professional"
  const SystemTypeEnterprise := "enterprise"
  const StatusNormal := "normal"

  datatype LicenceStatus = LicenceStatus(systemType: string, status: string)

  /** A professional or enterprise licence in normal standing. */
  predicate IsPremiumNormal(l: LicenceStatus) {
    (l.systemType == SystemTypeProfessional || l.systemType == SystemTypeEnterprise) && l.status == StatusNormal
  }
}
