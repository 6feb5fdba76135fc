/** The request shape for creating a client, its validity constraints and its conversions. */
module CreateClientRequest {
  import opened Wrappers
  import opened Enums
  import opened Text
  import opened Entities

  datatype CreateClientRequest = CreateClientRequest(
    name: Option<string>,
    clientType: Option<ClientType>,
    email: Option<string>,
    phone: Option<string>,
    registrationNumber: Option<string>)

  /** @NotBlank name and @NotNull clientType; the @Email syntax check is not modelled. */
  predicate Valid(r: CreateClientRequest) {
    !IsBlank(r.name) && r.clientType.Some?
  }

  /** The entity toEntity builds: the four strings trimmed (null stays null), the type
      copied, and no risk level, id or timestamps. */
  function EntityData(r: CreateClientRequest): (c: ClientData) {
    BlankClient.(name := TrimOpt(r.name), clientType := r.clientType, email := TrimOpt(r.email),
                 phone := TrimOpt(r.phone), registrationNumber := TrimOpt(r.registrationNumber))
  }

  /** CreateClientRequest.toEntity: a fresh Client filled in by setters. */
  method ToEntity(r: CreateClientRequest) returns (c: Client)
    ensures fresh(c)
    ensures c.Value() == EntityData(r)
  {
    c := new Client();
    c.name := TrimOpt(r.name);
    c.clientType := r.clientType;
    c.email := TrimOpt(r.email);
    c.phone := TrimOpt(r.phone);
    c.registrationNumber := TrimOpt(r.registrationNumber);
  }

  /** CreateClientRequest.from: the five request fields of a client, unchanged. */
  function From(c: ClientData): (r: CreateClientRequest) {
    CreateClientRequest(c.name, c.clientType, c.email, c.phone, c.registrationNumber)
  }

  /** A valid request's entity has a non-empty trimmed name and a type, but
      never a risk level, so it never satisfies the column constraints. */
  lemma ValidRequestEntity(r: CreateClientRequest)
    requires Valid(r)
    ensures var e := EntityData(r);
      && e.name.Some? && e.name.value != [] && !IsBlank(e.name) && e.clientType == r.clientType
      && e.riskLevel.None? && !Storable(e)
      && e.id.None? && e.createdAt.None? && e.updatedAt.None?
  {
    NotBlankTrimmed(r.name);
  }

  /** Trimming is idempotent: from(toEntity(r)).toEntity() is toEntity(r). */
  lemma {:induction false} TrimRoundTrip(r: CreateClientRequest)
    ensures EntityData(From(EntityData(r))) == EntityData(r)
  {
    TrimOptIdempotent(r.name);
    TrimOptIdempotent(r.email);
    TrimOptIdempotent(r.phone);
    TrimOptIdempotent(r.registrationNumber);
  }

  /** from then toEntity changes a client's five fields only by trimming them,
      and keeps nothing else. */
  lemma FromThenToEntity(c: ClientData)
    ensures var e := EntityData(From(c));
      && e.name == TrimOpt(c.name) && e.clientType == c.clientType && e.email == TrimOpt(c.email)
      && e.phone == TrimOpt(c.phone) && e.registrationNumber == TrimOpt(c.registrationNumber)
      && e.id.None? && e.riskLevel.None? && e.createdAt.None? && e.updatedAt.None?
  {
  }
}
