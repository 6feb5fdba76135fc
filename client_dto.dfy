/** The read view of a client: scalar fields always, persons only in the details view. */
module ClientDto {
  import opened Wrappers
  import opened Enums
  import opened Entities
  import PersonDto

  datatype ClientDTO = ClientDTO(
    id: Option<int>,
    name: Option<string>,
    clientType: Option<ClientType>,
    email: Option<string>,
    phone: Option<string>,
    registrationNumber: Option<string>,
    riskLevel: Option<RiskLevel>,
    createdAt: Option<Timestamp>,
    updatedAt: Option<Timestamp>,
    persons: Option<seq<PersonDto.PersonDTO>>)
  {
    /** The same view without its persons list. */
    function WithoutPersons(): (d: ClientDTO) {
      ClientDTO(id, name, clientType, email, phone, registrationNumber, riskLevel, createdAt, updatedAt, None)
    }

    /** The same view carrying the given persons list. */
    function WithPersons(ps: seq<PersonDto.PersonDTO>): (d: ClientDTO) {
      ClientDTO(id, name, clientType, email, phone, registrationNumber, riskLevel, createdAt, updatedAt, Some(ps))
    }
  }

  /** ClientDTO.from: the nine columns of the client, no persons. */
  function From(c: ClientData): (d: ClientDTO) {
    ClientDTO(c.id, c.name, c.clientType, c.email, c.phone, c.registrationNumber, c.riskLevel,
      c.createdAt, c.updatedAt, None)
  }

  /** ClientDTO.fromWithPersons: the same columns with the given persons converted. */
  function FromWithPersons(c: ClientData, ps: seq<PersonData>, clients: map<int, ClientData>): (d: ClientDTO)
    requires forall p :: p in ps ==> PersonDto.Resolvable(p, clients)
  {
    ClientDTO(c.id, c.name, c.clientType, c.email, c.phone, c.registrationNumber, c.riskLevel,
      c.createdAt, c.updatedAt, Some(PersonDto.FromList(ps, clients)))
  }

  /** ClientDTO.fromList: elementwise From, same length, same order. */
  function FromList(cs: seq<ClientData>): (r: seq<ClientDTO>)
    ensures |r| == |cs|
    ensures forall i :: 0 <= i < |cs| ==> r[i] == From(cs[i])
  {
    if cs == [] then [] else [From(cs[0])] + FromList(cs[1..])
  }

  /** Every view in a fromList result is the view of some listed client, and so carries no persons. */
  lemma FromListMembers(cs: seq<ClientData>)
    ensures forall d :: d in FromList(cs) <==> exists c :: c in cs && d == From(c)
    ensures forall d :: d in FromList(cs) ==> d.persons.None?
  {
    var r := FromList(cs);
    forall d | d in r ensures exists c :: c in cs && d == From(c) {
      var i :| 0 <= i < |r| && r[i] == d;
      assert cs[i] in cs;
    }
    forall c | c in cs ensures From(c) in r {
      var i :| 0 <= i < |cs| && cs[i] == c;
      assert r[i] == From(c);
    }
  }

  /** The entity toEntity builds: the six client fields copied; no id, no timestamps. */
  function EntityData(d: ClientDTO): (c: ClientData) {
    ClientData(None, d.name, d.clientType, d.email, d.phone, d.registrationNumber, d.riskLevel, None, None)
  }

  /** ClientDTO.toEntity: a fresh Client built by the setter sequence. */
  method ToEntity(d: ClientDTO) returns (c: Client)
    ensures fresh(c)
    ensures c.Value() == EntityData(d)
  {
    c := new Client();
    c.name := d.name;
    c.clientType := d.clientType;
    c.email := d.email;
    c.phone := d.phone;
    c.registrationNumber := d.registrationNumber;
    c.riskLevel := d.riskLevel;
  }

  /** From then toEntity gives back the client with only id and timestamps cleared;
      From keeps those three and sets no persons. */
  lemma FromThenToEntity(c: ClientData)
    ensures EntityData(From(c)) == c.(id := None, createdAt := None, updatedAt := None)
    ensures From(c).id == c.id && From(c).createdAt == c.createdAt && From(c).updatedAt == c.updatedAt
    ensures From(c).persons.None?
  {
  }

  /** fromWithPersons agrees with from on every scalar field, and its persons
      list is the given persons converted one by one, in order. */
  lemma FromWithPersonsShape(c: ClientData, ps: seq<PersonData>, clients: map<int, ClientData>)
    requires forall p :: p in ps ==> PersonDto.Resolvable(p, clients)
    ensures var d := FromWithPersons(c, ps, clients);
      && d.WithoutPersons() == From(c)
      && d.persons.Some? && |d.persons.value| == |ps|
      && forall i :: 0 <= i < |ps| ==> d.persons.value[i] == PersonDto.From(ps[i], clients)
  {
  }

  /** withoutPersons clears the persons, keeps everything else, and is idempotent. */
  lemma WithoutPersonsLaws(d: ClientDTO)
    ensures d.WithoutPersons().persons.None?
    ensures d.WithoutPersons().(persons := d.persons) == d
    ensures d.WithoutPersons().WithoutPersons() == d.WithoutPersons()
  {
  }

  /** withPersons sets exactly the persons; withoutPersons undoes it. */
  lemma WithPersonsLaws(d: ClientDTO, ps: seq<PersonDto.PersonDTO>)
    ensures d.WithPersons(ps).persons == Some(ps)
    ensures d.WithPersons(ps).WithoutPersons() == d.WithoutPersons()
    ensures d.persons.Some? ==> d.WithoutPersons().WithPersons(d.persons.value) == d
  {
  }
}
