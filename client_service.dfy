/**
 * ClientServiceImpl over the store: one atomic step per operation. Reads are
 * functions of the store; createClient and updateClientRiskLevel change it.
 */
module ClientService {
  import opened Wrappers
  import opened Enums
  import opened Text
  import opened Entities
  import opened Store
  import ClientRepository
  import PersonRepository
  import ClientDto
  import PersonDto
  import CreateClientRequest

  /** The failures the services raise: IllegalArgumentException, the
      not-found RuntimeException, the RuntimeException wrapping a failed
      save, and a persistence exception passed through unwrapped. */
  datatype ServiceError =
    | IllegalArgument(message: string)
    | NotFound(message: string)
    | Wrapped(message: string)
    | Storage(message: string)

  const CreateFailurePrefix := "Failed to create client: "
  const NullRiskLevelMessage := "New risk level cannot be null"

  /** The finding on a concrete request: "Acme Ltd" of type COMPANY is a valid
      request, yet the entity toEntity builds from it breaks the NOT NULL
      risk_level column; with a risk level supplied the same entity is storable. */
  lemma CreateClientCounterexample()
    ensures var r := CreateClientRequest.CreateClientRequest(Some("Acme Ltd"), Some(COMPANY), None, None, None);
      && CreateClientRequest.Valid(r)
      && !Storable(CreateClientRequest.EntityData(r))
      && Storable(CreateClientRequest.EntityData(r).(riskLevel := Some(LOW)))
  {
    var name := Some("Acme Ltd");
    assert !IsTrimmable(name.value[0]);
    TrimOptBlank(name);
  }

  class ClientServiceImpl {
    const store: KycStore

    constructor (store: KycStore)
      ensures this.store == store
    {
      this.store := store;
    }

    /** createClient exactly as written: the request's entity carries no risk
        level, and the risk_level column is NOT NULL, so every call fails with
        the wrapped "Failed to create client: " error and stores nothing. */
    method CreateClientAsWritten(request: CreateClientRequest.CreateClientRequest, fault: Option<string>)
      returns (r: Result<ClientDto.ClientDTO, ServiceError>)
      requires store.Valid()
      modifies store
      ensures store.Valid() && unchanged(store)
      ensures r.Failure? && r.error.Wrapped? && IsPrefix(CreateFailurePrefix, r.error.message)
    {
      var client := CreateClientRequest.ToEntity(request);
      var saved := store.SaveClient(client, fault);
      if saved.Failure? {
        r := Failure(Wrapped(CreateFailurePrefix + Cause(saved.error)));
      } else {
        assert false;
      }
    }

    /** createClient with the risk level the entity needs: the stored client is
        the trimmed request with that level, under a fresh id, created and
        updated at one new clock reading, and reads back with no persons. It
        fails, storing nothing, exactly when the save faults or the trimmed
        name is blank or the type is missing. */
    method CreateClient(request: CreateClientRequest.CreateClientRequest, initialRiskLevel: RiskLevel,
                        fault: Option<string>)
      returns (r: Result<ClientDto.ClientDTO, ServiceError>)
      requires store.Valid()
      modifies store
      ensures store.Valid()
      ensures r.Failure? <==> fault.Some? || !CreateClientRequest.Valid(request)
      ensures r.Failure? ==> unchanged(store) && r.error.Wrapped? && IsPrefix(CreateFailurePrefix, r.error.message)
      ensures r.Success? ==>
        var id := old(store.nextClientId);
        var row := CreateClientRequest.EntityData(request).(id := Some(id), riskLevel := Some(initialRiskLevel),
                                                            createdAt := Some(store.clock), updatedAt := Some(store.clock));
        && id !in old(store.clients)
        && store.clients == old(store.clients)[id := row]
        && store.order == old(store.order) + [id]
        && store.nextClientId == id + 1 && store.nextPersonId == old(store.nextPersonId)
        && store.persons == old(store.persons)
        && store.clock == old(store.clock) + 1
        && r.value == ClientDto.From(row)
        && GetClientDetails(Some(id)) == Some(r.value.WithPersons([]))
    {
      var client := CreateClientRequest.ToEntity(request);
      client.riskLevel := Some(initialRiskLevel);
      StorableIffValid(request, initialRiskLevel);
      var saved := store.SaveClient(client, fault);
      if saved.Failure? {
        r := Failure(Wrapped(CreateFailurePrefix + Cause(saved.error)));
      } else {
        r := Success(ClientDto.From(saved.value));
        NewClientDetails(old(store.nextClientId));
      }
    }

    /** The entity's constraints catch exactly the invalid requests. */
    static lemma StorableIffValid(request: CreateClientRequest.CreateClientRequest, level: RiskLevel)
      ensures Storable(CreateClientRequest.EntityData(request).(riskLevel := Some(level)))
          <==> CreateClientRequest.Valid(request)
    {
      TrimOptBlank(request.name);
    }

    /** A stored client no person belongs to reads back with an empty person list. */
    lemma NewClientDetails(id: int)
      requires store.Valid() && id in store.clients
      requires forall p :: p in store.persons ==> p.clientId != Some(id)
      ensures GetClientDetails(Some(id)) == Some(ClientDto.From(store.clients[id]).WithPersons([]))
    {
      assert PersonRepository.FindByClientId(store.persons, id) == [];
    }

    /** searchClients: the views, without persons, of exactly the stored clients
        that meet every given criterion. */
    function SearchClients(name: Option<string>, clientType: Option<ClientType>, riskLevel: Option<RiskLevel>)
      : (r: seq<ClientDto.ClientDTO>)
      reads store
      requires store.Valid()
      requires name.Some? ==> NoLikeWildcards(name.value)
      ensures forall d :: d in r ==> d.persons.None?
      ensures forall d :: d in r <==>
        exists k :: k in store.clients && ClientRepository.Matches(store.clients[k], name, clientType, riskLevel)
                  && d == ClientDto.From(store.clients[k])
    {
      var found := ClientRepository.SearchClients(store.Table(), name, clientType, riskLevel);
      ClientDto.FromListMembers(found);
      ClientDto.FromList(found)
    }

    /** getClientDetails: empty for a null or unknown id; otherwise the client's
        view whose persons are the views of exactly the persons of that client. */
    function GetClientDetails(clientId: Option<int>): (r: Option<ClientDto.ClientDTO>)
      reads store
      requires store.Valid()
      ensures r.Some? <==> clientId.Some? && clientId.value in store.clients
      ensures r.Some? ==>
        && r.value.WithoutPersons() == ClientDto.From(store.clients[clientId.value])
        && r.value.persons.Some?
        && forall v :: v in r.value.persons.value <==>
             exists p :: p in store.persons && p.clientId == clientId && v == PersonDto.From(p, store.clients)
    {
      if clientId.None? then None
      else if clientId.value !in store.clients then None
      else
        var persons := PersonRepository.FindByClientId(store.persons, clientId.value);
        PersonDto.FromListMembers(persons, store.clients);
        Some(ClientDto.FromWithPersons(store.clients[clientId.value], persons, store.clients))
    }

    /** getAllClients: the views, without persons, of every stored client. */
    function GetAllClients(): (r: seq<ClientDto.ClientDTO>)
      reads store
      requires store.Valid()
      ensures forall d :: d in r ==> d.persons.None?
      ensures forall d :: d in r <==> exists k :: k in store.clients && d == ClientDto.From(store.clients[k])
    {
      ClientDto.FromListMembers(store.Table());
      ClientDto.FromList(store.Table())
    }

    /** getHighRiskClients: the views of exactly the HIGH clients, ordered by name. */
    function GetHighRiskClients(): (r: seq<ClientDto.ClientDTO>)
      reads store
      requires store.Valid()
      ensures forall d :: d in r ==> d.persons.None? && d.riskLevel == Some(HIGH)
      ensures forall d :: d in r <==>
        exists k :: k in store.clients && store.clients[k].riskLevel == Some(HIGH) && d == ClientDto.From(store.clients[k])
      ensures forall i, j :: 0 <= i < j < |r| ==> LexLeq(r[i].name.GetOr(""), r[j].name.GetOr(""))
    {
      var found := ClientRepository.FindByRiskLevelOrderByNameAsc(store.Table(), HIGH);
      ClientDto.FromListMembers(found);
      ClientDto.FromList(found)
    }

    /** clientExists: false for a null id, otherwise whether the id is stored. */
    function ClientExists(clientId: Option<int>): (r: bool)
      reads store
      requires store.Valid()
      ensures r <==> clientId.Some? && exists c :: c in store.Table() && c.id == clientId
    {
      if clientId.Some? && clientId.value in store.clients then
        store.RowInTable(clientId.value);
        true
      else
        false
    }

    /** getClientsByType: empty for a null type, never the whole table;
        otherwise the views of exactly the clients of that type. */
    function GetClientsByType(clientType: Option<ClientType>): (r: seq<ClientDto.ClientDTO>)
      reads store
      requires store.Valid()
      ensures clientType.None? ==> r == []
      ensures forall d :: d in r ==> d.persons.None?
      ensures forall d :: d in r <==> (clientType.Some? &&
        exists k :: k in store.clients && store.clients[k].clientType == clientType && d == ClientDto.From(store.clients[k]))
    {
      if clientType.None? then []
      else
        var found := ClientRepository.FindByClientType(store.Table(), clientType.value);
        ClientDto.FromListMembers(found);
        ClientDto.FromList(found)
    }

    /** getClientsByRiskLevel: empty for a null level, never the whole table;
        otherwise the views of exactly the clients at that level. */
    function GetClientsByRiskLevel(riskLevel: Option<RiskLevel>): (r: seq<ClientDto.ClientDTO>)
      reads store
      requires store.Valid()
      ensures riskLevel.None? ==> r == []
      ensures forall d :: d in r ==> d.persons.None?
      ensures forall d :: d in r <==> (riskLevel.Some? &&
        exists k :: k in store.clients && store.clients[k].riskLevel == riskLevel && d == ClientDto.From(store.clients[k]))
    {
      if riskLevel.None? then []
      else
        var found := ClientRepository.FindByRiskLevel(store.Table(), riskLevel.value);
        ClientDto.FromListMembers(found);
        ClientDto.FromList(found)
    }

    /** The two null policies differ: a search with no criteria returns every
        client, while a null type or level returns nothing. */
    lemma NullPoliciesDiffer()
      requires store.Valid()
      ensures SearchClients(None, None, None) == GetAllClients()
      ensures GetClientsByType(None) == [] && GetClientsByRiskLevel(None) == []
    {
      ClientRepository.SearchWithoutCriteria(store.Table());
    }

    /** updateClientRiskLevel. The null id is checked first (empty result),
        then the null level (IllegalArgumentException), then the lookup (empty
        for an unknown id); all three leave the store unchanged. The view is built
        from the entity save hands back, before the commit flush runs @PreUpdate,
        so it carries the new level and the previous update time. A changed level
        is then written with a strictly later update time; the same level leaves
        the entity clean and the store unchanged. A failing save propagates
        unwrapped and stores nothing. */
    method UpdateClientRiskLevel(clientId: Option<int>, newRiskLevel: Option<RiskLevel>, fault: Option<string>)
      returns (r: Result<Option<ClientDto.ClientDTO>, ServiceError>)
      requires store.Valid()
      modifies store
      ensures store.Valid()
      ensures clientId.None? ==> r == Success(None) && unchanged(store)
      ensures clientId.Some? && newRiskLevel.None? ==>
        r == Failure(IllegalArgument(NullRiskLevelMessage)) && unchanged(store)
      ensures clientId.Some? && newRiskLevel.Some? && clientId.value !in old(store.clients) ==>
        r == Success(None) && unchanged(store)
      ensures clientId.Some? && newRiskLevel.Some? && clientId.value in old(store.clients) && fault.Some? ==>
        r == Failure(Storage(fault.value)) && unchanged(store)
      ensures clientId.Some? && newRiskLevel.Some? && clientId.value in old(store.clients) && fault.None? ==>
        var before := old(store.clients)[clientId.value];
        var merged := before.(riskLevel := newRiskLevel);
        && r == Success(Some(ClientDto.From(merged)))
        && ClientDto.From(merged).riskLevel == newRiskLevel && ClientDto.From(merged).updatedAt == before.updatedAt
        && store.order == old(store.order) && store.persons == old(store.persons)
        && store.nextClientId == old(store.nextClientId) && store.nextPersonId == old(store.nextPersonId)
        && (newRiskLevel == before.riskLevel ==> store.clients == old(store.clients) && store.clock == old(store.clock))
        && (newRiskLevel != before.riskLevel ==>
              var row := merged.(updatedAt := Some(store.clock));
              && store.clients == old(store.clients)[clientId.value := row]
              && store.clock == old(store.clock) + 1
              && before.updatedAt.Some? && row.updatedAt.value > before.updatedAt.value
              && row.createdAt == before.createdAt)
    {
      if clientId.None? {
        return Success(None);
      }
      if newRiskLevel.None? {
        return Failure(IllegalArgument(NullRiskLevelMessage));
      }
      var client := store.FindById(clientId.value);
      if client == null {
        return Success(None);
      }
      client.riskLevel := newRiskLevel;
      var saved := store.SaveClient(client, fault);
      if saved.Failure? {
        r := Failure(Storage(Cause(saved.error)));
      } else {
        r := Success(Some(ClientDto.From(saved.value)));
      }
    }
  }
}
