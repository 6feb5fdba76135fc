/** PersonServiceImpl over the store: adding a person is one atomic step; the two listings are reads. */
module PersonService {
  import opened Wrappers
  import opened Enums
  import opened Text
  import opened Entities
  import opened Store
  import PersonRepository
  import PersonDto
  import CreatePersonRequest
  import ClientService

  const NotFoundPrefix := "Client not found with ID: "
  const AddFailurePrefix := "Failed to add person to client: "
  /** What the repository's findById raises for a null id. */
  const NullIdMessage := "The given id must not be null"

  class PersonServiceImpl {
    const store: KycStore

    constructor (store: KycStore)
      ensures this.store == store
    {
      this.store := store;
    }

    /** addPersonToClient. A null client id is refused by the lookup; an unknown
        client id fails with the not-found message naming the id; a failing save
        fails with the wrapped message; all three store nothing. Otherwise the
        trimmed request's person is stored under a fresh id, created and updated
        at one new clock reading, attached to the client, and its view names
        that client. */
    method AddPersonToClient(request: CreatePersonRequest.CreatePersonRequest, fault: Option<string>)
      returns (r: Result<PersonDto.PersonDTO, ClientService.ServiceError>)
      requires store.Valid()
      modifies store
      ensures store.Valid()
      ensures request.clientId.None? ==> r == Failure(ClientService.IllegalArgument(NullIdMessage)) && unchanged(store)
      ensures request.clientId.Some? && request.clientId.value !in old(store.clients) ==>
        r == Failure(ClientService.NotFound(NotFoundPrefix + IntToString(request.clientId.value))) && unchanged(store)
      ensures request.clientId.Some? && request.clientId.value in old(store.clients) && fault.Some? ==>
        r == Failure(ClientService.Wrapped(AddFailurePrefix + fault.value)) && unchanged(store)
      ensures request.clientId.Some? && request.clientId.value in old(store.clients) && fault.None? ==>
        var row := CreatePersonRequest.EntityData(request).(id := Some(old(store.nextPersonId)), createdAt := Some(store.clock),
                                                            updatedAt := Some(store.clock), clientId := request.clientId);
        && store.persons == old(store.persons) + [row]
        && store.clients == old(store.clients) && store.order == old(store.order)
        && store.nextClientId == old(store.nextClientId) && store.nextPersonId == old(store.nextPersonId) + 1
        && store.clock == old(store.clock) + 1
        && r.Success? && r.value == PersonDto.From(row, store.clients)
        && r.value.clientId == request.clientId
        && r.value.clientName == store.clients[request.clientId.value].name
    {
      if request.clientId.None? {
        return Failure(ClientService.IllegalArgument(NullIdMessage));
      }
      var id := request.clientId.value;
      var client := store.FindById(id);
      if client == null {
        return Failure(ClientService.NotFound(NotFoundPrefix + IntToString(id)));
      }
      var person := CreatePersonRequest.ToEntity(request);
      person.client := client;
      var saved := store.SavePerson(person, fault);
      if saved.Failure? {
        r := Failure(ClientService.Wrapped(AddFailurePrefix + Cause(saved.error)));
      } else {
        r := Success(PersonDto.From(saved.value, store.clients));
      }
    }

    /** getPersonsByClient: empty for a null id, and for an id the store does
        not hold; otherwise the views of exactly the persons of that client. */
    function GetPersonsByClient(clientId: Option<int>): (r: seq<PersonDto.PersonDTO>)
      reads store
      requires store.Valid()
      ensures clientId.None? ==> r == []
      ensures clientId.Some? && clientId.value !in store.clients ==> r == []
      ensures forall v :: v in r <==>
        (clientId.Some? && exists p :: p in store.persons && p.clientId == clientId && v == PersonDto.From(p, store.clients))
    {
      if clientId.None? then []
      else
        var persons := PersonRepository.FindByClientId(store.persons, clientId.value);
        PersonDto.FromListMembers(persons, store.clients);
        PersonDto.FromList(persons, store.clients)
    }

    /** getBeneficialOwners: the views of exactly the beneficial owners, of every client. */
    function GetBeneficialOwners(): (r: seq<PersonDto.PersonDTO>)
      reads store
      requires store.Valid()
      ensures forall v :: v in r <==>
        exists p :: p in store.persons && p.relationshipType == Some(BENEFICIAL_OWNER) && v == PersonDto.From(p, store.clients)
      ensures forall v :: v in r ==> v.relationshipType == Some(BENEFICIAL_OWNER)
    {
      var persons := PersonRepository.FindAllBeneficialOwners(store.persons);
      PersonDto.FromListMembers(persons, store.clients);
      PersonDto.FromList(persons, store.clients)
    }
  }
}
