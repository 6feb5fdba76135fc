/** The enumerations of the registry; their value sets are part of the external contract. */
module Enums {

  datatype ClientType = INDIVIDUAL | COMPANY | TRUST | PARTNERSHIP | OTHER

  datatype RiskLevel = LOW | MEDIUM | HIGH

  datatype RelationshipType =
    | OWNER
    | DIRECTOR
    | SHAREHOLDER
    | BENEFICIAL_OWNER
    | AUTHORIZED_SIGNATORY
    | LEGAL_REPRESENTATIVE
    | TRUSTEE
    | PROTECTOR
    | SETTLOR
    | BENEFICIARY
    | PARTNER
    | OTHER

  /** Declared by the source but used by no operation. */
  datatype ClientStatus = ACTIVE | INACTIVE | SUSPENDED | BLOCKED | PENDING_APPROVAL

  /** A reading of the logical clock that stands in for LocalDateTime.now(). */
  type Timestamp = nat

  /** A LocalDate, only ever copied. */
  datatype Date = Date(year: int, month: int, day: int)
}
