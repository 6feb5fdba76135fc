/**
 * The two persisted entities. ClientData and PersonData are the values of
 * their columns (every column nullable at the Java level, hence Option);
 * Client and Person are the mutable entity objects whose setters and
 * lifecycle hooks change them in place.
 */
module Entities {
  import opened Wrappers
  import opened Enums
  import opened Text

  datatype ClientData = ClientData(
    id: Option<int>,
    name: Option<string>,
    clientType: Option<ClientType>,
    email: Option<string>,
    phone: Option<string>,
    registrationNumber: Option<string>,
    riskLevel: Option<RiskLevel>,
    createdAt: Option<Timestamp>,
    updatedAt: Option<Timestamp>)

  /** What `new Client()` holds: every field null. */
  const BlankClient := ClientData(None, None, None, None, None, None, None, None, None)

  /** The column constraints checked when a client is written: @NotBlank name,
      @NotNull client type, and the NOT NULL risk_level column. */
  predicate Storable(c: ClientData) {
    !IsBlank(c.name) && c.clientType.Some? && c.riskLevel.Some?
  }

  /** A client row as it sits in the store: storable, with a generated id and
      both timestamps, the creation time never after the last update. */
  predicate Persisted(c: ClientData) {
    && Storable(c)
    && c.id.Some?
    && c.createdAt.Some? && c.updatedAt.Some?
    && c.createdAt.value <= c.updatedAt.value
  }

  /** The sort key of ORDER BY name. */
  function NameKey(c: ClientData): (key: string) {
    c.name.GetOr("")
  }

  class Client {
    var id: Option<int>
    var name: Option<string>
    var clientType: Option<ClientType>
    var email: Option<string>
    var phone: Option<string>
    var registrationNumber: Option<string>
    var riskLevel: Option<RiskLevel>
    var createdAt: Option<Timestamp>
    var updatedAt: Option<Timestamp>

    /** The current values of the entity's columns. */
    function Value(): (v: ClientData)
      reads this
    {
      ClientData(id, name, clientType, email, phone, registrationNumber, riskLevel, createdAt, updatedAt)
    }

    /** `new Client()`. */
    constructor ()
      ensures Value() == BlankClient
    {
      id, name, clientType, email, phone, registrationNumber := None, None, None, None, None, None;
      riskLevel, createdAt, updatedAt := None, None, None;
    }

    /** The entity the persistence layer materialises from a stored row. */
    constructor Hydrate(row: ClientData)
      ensures Value() == row
    {
      id, name, clientType, email, phone := row.id, row.name, row.clientType, row.email, row.phone;
      registrationNumber, riskLevel := row.registrationNumber, row.riskLevel;
      createdAt, updatedAt := row.createdAt, row.updatedAt;
    }

    /** @PrePersist: both timestamps take the current clock reading. */
    method OnCreate(now: Timestamp)
      modifies this
      ensures Value() == old(Value()).(createdAt := Some(now), updatedAt := Some(now))
    {
      createdAt := Some(now);
      updatedAt := Some(now);
    }

    /** @PreUpdate: only the update timestamp moves. */
    method OnUpdate(now: Timestamp)
      modifies this
      ensures Value() == old(Value()).(updatedAt := Some(now))
    {
      updatedAt := Some(now);
    }
  }

  datatype PersonData = PersonData(
    id: Option<int>,
    firstName: Option<string>,
    lastName: Option<string>,
    email: Option<string>,
    phone: Option<string>,
    dateOfBirth: Option<Date>,
    nationality: Option<string>,
    identificationNumber: Option<string>,
    relationshipType: Option<RelationshipType>,
    positionTitle: Option<string>,
    ownershipPercentage: Option<real>,
    address: Option<string>,
    createdAt: Option<Timestamp>,
    updatedAt: Option<Timestamp>,
    clientId: Option<int>)

  /** Person.getFullName: first and last name joined by one space, as Java
      string concatenation renders them (a null renders as "null"). */
  function FullName(p: PersonData): (name: string) {
    JavaString(p.firstName) + " " + JavaString(p.lastName)
  }

  /** A person row as it sits in the store: generated id, both timestamps, and a client. */
  predicate PersonPersisted(p: PersonData) {
    && p.id.Some?
    && p.createdAt.Some? && p.updatedAt.Some?
    && p.createdAt.value <= p.updatedAt.value
    && p.clientId.Some?
  }

  class Person {
    var id: Option<int>
    var firstName: Option<string>
    var lastName: Option<string>
    var email: Option<string>
    var phone: Option<string>
    var dateOfBirth: Option<Date>
    var nationality: Option<string>
    var identificationNumber: Option<string>
    var relationshipType: Option<RelationshipType>
    var positionTitle: Option<string>
    var ownershipPercentage: Option<real>
    var address: Option<string>
    var createdAt: Option<Timestamp>
    var updatedAt: Option<Timestamp>
    var client: Client?

    /** The current values of the entity's columns; the client association is its id. */
    function Value(): (v: PersonData)
      reads this, client
    {
      PersonData(id, firstName, lastName, email, phone, dateOfBirth, nationality,
        identificationNumber, relationshipType, positionTitle, ownershipPercentage, address,
        createdAt, updatedAt, if client != null then client.id else None)
    }

    /** A detached entity holding a row's columns and no client. */
    constructor Detached(v: PersonData)
      ensures client == null
      ensures Value() == v.(clientId := None)
    {
      id, firstName, lastName, email, phone := v.id, v.firstName, v.lastName, v.email, v.phone;
      dateOfBirth, nationality, identificationNumber := v.dateOfBirth, v.nationality, v.identificationNumber;
      relationshipType, positionTitle, ownershipPercentage := v.relationshipType, v.positionTitle, v.ownershipPercentage;
      address, createdAt, updatedAt, client := v.address, v.createdAt, v.updatedAt, null;
    }

    /** @PrePersist, by the same convention as Client. */
    method OnCreate(now: Timestamp)
      modifies this
      ensures client == old(client)
      ensures Value() == old(Value()).(createdAt := Some(now), updatedAt := Some(now))
    {
      createdAt := Some(now);
      updatedAt := Some(now);
    }
  }
}
