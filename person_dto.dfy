/** The read view of a person and its conversions to and from the entity. */
module PersonDto {
  import opened Wrappers
  import opened Enums
  import opened Text
  import opened Entities

  datatype PersonDTO = PersonDTO(
    id: Option<int>,
    firstName: Option<string>,
    lastName: Option<string>,
    fullName: Option<string>,
    email: Option<string>,
    phone: Option<string>,
    dateOfBirth: Option<Date>,
    nationality: Option<string>,
    identificationNumber: Option<string>,
    relationshipType: Option<RelationshipType>,
    positionTitle: Option<string>,
    ownershipPercentage: Option<real>,
    address: Option<string>,
    createdAt: Option<Timestamp>,
    updatedAt: Option<Timestamp>,
    clientId: Option<int>,
    clientName: Option<string>)

  /** The person's association resolves to a client in `clients`, as p.getClient() does. */
  predicate Resolvable(p: PersonData, clients: map<int, ClientData>) {
    p.clientId.Some? && p.clientId.value in clients
  }

  /** PersonDTO.from: the person's own columns, its derived full name, and the id
      and name of the client its association resolves to. */
  function From(p: PersonData, clients: map<int, ClientData>): (d: PersonDTO)
    requires Resolvable(p, clients)
  {
    var owner := clients[p.clientId.value];
    PersonDTO(p.id, p.firstName, p.lastName, Some(FullName(p)), p.email, p.phone, p.dateOfBirth,
      p.nationality, p.identificationNumber, p.relationshipType, p.positionTitle,
      p.ownershipPercentage, p.address, p.createdAt, p.updatedAt, owner.id, owner.name)
  }

  /** PersonDTO.fromList: elementwise From, same length, same order. */
  function FromList(ps: seq<PersonData>, clients: map<int, ClientData>): (r: seq<PersonDTO>)
    requires forall p :: p in ps ==> Resolvable(p, clients)
    ensures |r| == |ps|
    ensures forall i :: 0 <= i < |ps| ==> r[i] == From(ps[i], clients)
  {
    if ps == [] then [] else [From(ps[0], clients)] + FromList(ps[1..], clients)
  }

  /** The views of a list are the views of exactly its members. */
  lemma FromListMembers(ps: seq<PersonData>, clients: map<int, ClientData>)
    requires forall p :: p in ps ==> Resolvable(p, clients)
    ensures forall v :: v in FromList(ps, clients) <==> exists p :: p in ps && v == From(p, clients)
  {
    var views := FromList(ps, clients);
    forall v | v in views ensures exists p :: p in ps && v == From(p, clients) {
      var i :| 0 <= i < |views| && views[i] == v;
      assert ps[i] in ps;
    }
    forall p | p in ps ensures From(p, clients) in views {
      var i :| 0 <= i < |ps| && ps[i] == p;
      assert views[i] == From(p, clients);
    }
  }

  /** The entity toEntity builds: the eleven person fields copied, nothing else set. */
  function EntityData(d: PersonDTO): (p: PersonData) {
    PersonData(None, d.firstName, d.lastName, d.email, d.phone, d.dateOfBirth, d.nationality,
      d.identificationNumber, d.relationshipType, d.positionTitle, d.ownershipPercentage, d.address,
      None, None, None)
  }

  /** PersonDTO.toEntity: a fresh Person whose eleven columns the setters fill in (written
      here in one step); the client is left for the service. */
  method ToEntity(d: PersonDTO) returns (p: Person)
    ensures fresh(p) && p.client == null
    ensures p.Value() == EntityData(d)
  {
    p := new Person.Detached(EntityData(d));
  }

  /** PersonDTO.forCreation: no id, timestamps or client; the full name joined from the parts. */
  function ForCreation(firstName: Option<string>, lastName: Option<string>, email: Option<string>,
                       phone: Option<string>, dateOfBirth: Option<Date>, nationality: Option<string>,
                       identificationNumber: Option<string>, relationshipType: Option<RelationshipType>,
                       positionTitle: Option<string>, ownershipPercentage: Option<real>,
                       address: Option<string>): (d: PersonDTO)
  {
    PersonDTO(None, firstName, lastName, Some(JavaString(firstName) + " " + JavaString(lastName)),
      email, phone, dateOfBirth, nationality, identificationNumber, relationshipType, positionTitle,
      ownershipPercentage, address, None, None, None, None)
  }

  /** From then toEntity gives back the person with only the generated and
      associated parts (id, timestamps, client) cleared. */
  lemma FromThenToEntity(p: PersonData, clients: map<int, ClientData>)
    requires Resolvable(p, clients)
    ensures EntityData(From(p, clients)) == p.(id := None, createdAt := None, updatedAt := None, clientId := None)
  {
  }

  /** The view keeps the person's generated id and timestamps, and names the
      client the person belongs to when the store keys each client by its id. */
  lemma FromKeepsIdentity(p: PersonData, clients: map<int, ClientData>)
    requires Resolvable(p, clients)
    requires clients[p.clientId.value].id == p.clientId
    ensures var d := From(p, clients);
      && d.id == p.id && d.createdAt == p.createdAt && d.updatedAt == p.updatedAt
      && d.clientId == p.clientId && d.clientName == clients[p.clientId.value].name
      && d.fullName == Some(FullName(p))
  {
  }

  /** forCreation then toEntity yields an entity whose fields are exactly the
      arguments, with no id, timestamps or client; forCreation's full name is
      the one the entity derives. */
  lemma ForCreationThenToEntity(firstName: Option<string>, lastName: Option<string>, email: Option<string>,
                                phone: Option<string>, dateOfBirth: Option<Date>, nationality: Option<string>,
                                identificationNumber: Option<string>, relationshipType: Option<RelationshipType>,
                                positionTitle: Option<string>, ownershipPercentage: Option<real>,
                                address: Option<string>)
    ensures var d := ForCreation(firstName, lastName, email, phone, dateOfBirth, nationality,
                                 identificationNumber, relationshipType, positionTitle, ownershipPercentage, address);
      && EntityData(d) == PersonData(None, firstName, lastName, email, phone, dateOfBirth, nationality,
                                     identificationNumber, relationshipType, positionTitle, ownershipPercentage,
                                     address, None, None, None)
      && d.fullName == Some(FullName(EntityData(d)))
      && d.id.None? && d.createdAt.None? && d.updatedAt.None? && d.clientId.None? && d.clientName.None?
  {
  }
}
