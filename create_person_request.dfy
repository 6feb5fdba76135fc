/** The request shape for adding a person to a client, its validity constraints and its conversion. */
module CreatePersonRequest {
  import opened Wrappers
  import opened Enums
  import opened Text
  import opened Entities

  datatype CreatePersonRequest = CreatePersonRequest(
    clientId: Option<int>,
    firstName: Option<string>,
    lastName: Option<string>,
    email: Option<string>,
    phone: Option<string>,
    dateOfBirth: Option<Date>,
    nationality: Option<string>,
    identificationNumber: Option<string>,
    relationshipType: Option<RelationshipType>,
    positionTitle: Option<string>,
    ownershipPercentage: Option<real>,
    address: Option<string>)

  /** @DecimalMin("0.0") and @DecimalMax("100.0"), both inclusive; null passes. */
  predicate OwnershipInRange(o: Option<real>) {
    o.None? || (0.0 <= o.value <= 100.0)
  }

  /** All constraints of the request except the @Email syntax check. */
  predicate Valid(r: CreatePersonRequest) {
    && r.clientId.Some?
    && !IsBlank(r.firstName)
    && !IsBlank(r.lastName)
    && r.relationshipType.Some?
    && OwnershipInRange(r.ownershipPercentage)
  }

  /** The entity toEntity builds: eight strings trimmed (null stays null), date of
      birth, relationship type and ownership copied, no id, timestamps or client. */
  function EntityData(r: CreatePersonRequest): (p: PersonData) {
    PersonData(None, TrimOpt(r.firstName), TrimOpt(r.lastName), TrimOpt(r.email), TrimOpt(r.phone),
      r.dateOfBirth, TrimOpt(r.nationality), TrimOpt(r.identificationNumber), r.relationshipType,
      TrimOpt(r.positionTitle), r.ownershipPercentage, TrimOpt(r.address), None, None, None)
  }

  /** CreatePersonRequest.toEntity: a fresh Person whose eleven columns the setter calls
      fill in (written here in one step); no client yet. */
  method ToEntity(r: CreatePersonRequest) returns (p: Person)
    ensures fresh(p) && p.client == null
    ensures p.Value() == EntityData(r)
  {
    p := new Person.Detached(EntityData(r));
  }

  /** A valid request yields an entity with non-empty trimmed first and last
      names, a relationship type, an in-range ownership, and no client yet. */
  lemma ValidRequestEntity(r: CreatePersonRequest)
    requires Valid(r)
    ensures var e := EntityData(r);
      && e.firstName.Some? && e.firstName.value != [] && !IsBlank(e.firstName)
      && e.lastName.Some? && e.lastName.value != [] && !IsBlank(e.lastName)
      && e.relationshipType == r.relationshipType && e.relationshipType.Some?
      && OwnershipInRange(e.ownershipPercentage)
      && e.clientId.None? && e.id.None?
  {
    NotBlankTrimmed(r.firstName);
    NotBlankTrimmed(r.lastName);
  }

  /** Every string of the built entity is already trimmed: trimming it again changes nothing. */
  lemma {:induction false} EntityStringsTrimmed(r: CreatePersonRequest)
    ensures var e := EntityData(r);
      && TrimOpt(e.firstName) == e.firstName && TrimOpt(e.lastName) == e.lastName
      && TrimOpt(e.email) == e.email && TrimOpt(e.phone) == e.phone
      && TrimOpt(e.nationality) == e.nationality && TrimOpt(e.identificationNumber) == e.identificationNumber
      && TrimOpt(e.positionTitle) == e.positionTitle && TrimOpt(e.address) == e.address
  {
    TrimOptIdempotent(r.firstName);
    TrimOptIdempotent(r.lastName);
    TrimOptIdempotent(r.email);
    TrimOptIdempotent(r.phone);
    TrimOptIdempotent(r.nationality);
    TrimOptIdempotent(r.identificationNumber);
    TrimOptIdempotent(r.positionTitle);
    TrimOptIdempotent(r.address);
  }
}
