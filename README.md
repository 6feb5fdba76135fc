# KYC registry model

This is a Dafny model of the core of a Know-Your-Customer registry. The registry is a Spring service that keeps client
organisations and their associated persons (owners, directors, beneficial owners and so on). It exposes a
`search_clients` tool to an AI assistant through the Model Context Protocol.

The model covers these parts:

- **Queries.** The two repositories' queries are functions over the stored rows:
  - the multi-criteria client search of the JPQL `@Query`;
  - the name-ordered risk listing;
  - the person filters by client id, relationship type, full-name containment and beneficial ownership.
- **Entities.** `Client` and `Person` are classes whose setters and `@PrePersist`/`@PreUpdate` hooks change fields
  in place. `ClientData` and `PersonData` are the values of their columns.
- **DTOs and requests.** `ClientDTO`, `PersonDTO`, `CreateClientRequest` and `CreatePersonRequest` are datatypes. Their
  conversions cover field copying, trimming, the derived full name, and the persons list present only in the
  details view.
- **Store.** An in-memory `KycStore` class stands in for JPA. It holds:
  - a map of client rows and their insertion order;
  - a sequence of person rows;
  - one id generator per table, since clients and persons each have their own identity column;
  - a logical clock that replaces `LocalDateTime.now()`.

  Its invariant `Valid()` says:
  - every stored client is storable, keyed by its own id, and has both timestamps, with `createdAt <= updatedAt`;
  - every person belongs to a stored client;
  - each table's ids lie below its own generator, and no timestamp is ahead of the clock.

  Every mutating operation keeps this invariant.
- **Services.** `ClientServiceImpl` and `PersonServiceImpl` are classes over the store:
  - mutating operations are methods whose `ensures` state the whole new store;
  - reads are functions of the store.
- **Tool and response.** The `search_clients` tool builds a response map. `McpServerResponse` is the response envelope
  with its two factories.

Null Java values are `Option`s. Exceptions are `Result.Failure` values. The storage failures and exceptions that
the source cannot control are `fault` parameters: a present fault makes the save or search fail with that message.

## Model

Source paths are under `src/main/java/com/theociobanoiu/kycmcp/`; the table cites them in full.

| member | source | states |
|---|---|---|
| Text.TrimStart | src/main/java/com/theociobanoiu/kycmcp/model/dto/request/CreateClientRequest.java:52 | The result is a suffix of the input. Every char dropped is at or below U+0020, and the result does not start with such a char. |
| Text.TrimEnd | src/main/java/com/theociobanoiu/kycmcp/model/dto/request/CreateClientRequest.java:52 | The result is a prefix of the input. Every char dropped is at or below U+0020, and the result does not end with such a char. |
| Text.TrimSpec | src/main/java/com/theociobanoiu/kycmcp/model/dto/request/CreateClientRequest.java:52 | `String.trim` neither starts nor ends with a trimmable char. It is empty exactly when every char of the input is trimmable. |
| Text.TrimIdempotent | src/main/java/com/theociobanoiu/kycmcp/model/dto/request/CreateClientRequest.java:52-56 | Trimming twice is trimming once. |
| Text.TrimOpt | src/main/java/com/theociobanoiu/kycmcp/model/dto/request/CreateClientRequest.java:52-56 | `x != null ? x.trim() : null` is null exactly when its argument is null. |
| Text.TrimOptIdempotent | src/main/java/com/theociobanoiu/kycmcp/model/dto/request/CreateClientRequest.java:52-56 | The null-preserving trim is idempotent. |
| Text.BlankIffTrimsToEmpty | src/main/java/com/theociobanoiu/kycmcp/model/dto/request/CreateClientRequest.java:20-21 | `@NotBlank` fails exactly when the value is null or trims to the empty string. |
| Text.TrimOptBlank | src/main/java/com/theociobanoiu/kycmcp/model/dto/request/CreateClientRequest.java:20-21 | A value is blank after trimming exactly when it was blank before. |
| Text.NotBlankTrimmed | src/main/java/com/theociobanoiu/kycmcp/model/dto/request/CreateClientRequest.java:52 | A non-blank value trims to a present, non-empty, non-blank value. |
| Text.Lower | src/main/java/com/theociobanoiu/kycmcp/repository/ClientRepository.java:41 | `LOWER` keeps the length. |
| Text.LowerAt | src/main/java/com/theociobanoiu/kycmcp/repository/ClientRepository.java:41 | `LOWER` works char by char. |
| Text.LowerAppend | src/main/java/com/theociobanoiu/kycmcp/repository/PersonRepository.java:21 | Lower-casing a concatenation is concatenating the lower-cased parts. |
| Text.LowerIdempotent | src/main/java/com/theociobanoiu/kycmcp/repository/ClientRepository.java:41 | Lower-casing twice is lower-casing once. |
| Text.ContainsAt | src/main/java/com/theociobanoiu/kycmcp/repository/ClientRepository.java:41 | `s LIKE '%' + n + '%'` (n without wildcards) holds exactly when n occurs in s at some position. |
| Text.ContainsEmpty | src/main/java/com/theociobanoiu/kycmcp/repository/ClientRepository.java:41 | `LIKE '%%'` matches every string. |
| Text.ContainsIgnoreCaseSelf | src/main/java/com/theociobanoiu/kycmcp/repository/ClientRepository.java:41 | Every name matches a search for itself, in any case. |
| Text.LexLeqTotal | src/main/java/com/theociobanoiu/kycmcp/repository/ClientRepository.java:28 | The name order is total. |
| Text.LexLeqTransitive | src/main/java/com/theociobanoiu/kycmcp/repository/ClientRepository.java:28 | The name order is transitive. |
| Text.NatToString | src/main/java/com/theociobanoiu/kycmcp/mcp/tools/KycMcpTools.java:45 | `%d` of a non-negative number is a non-empty run of decimal digits with no leading zero. |
| Text.ParseNatToString | src/main/java/com/theociobanoiu/kycmcp/mcp/tools/KycMcpTools.java:45 | Reading the decimal rendering back gives the number. |
| Text.IntToString | src/main/java/com/theociobanoiu/kycmcp/service/impl/PersonServiceImpl.java:34 | A `Long` concatenated into a string renders with a leading `-` exactly when it is negative. |
| Text.IntToStringRoundTrip | src/main/java/com/theociobanoiu/kycmcp/service/impl/PersonServiceImpl.java:34 | The rendered id reads back as the id, so the not-found message names exactly that id. |
| Seqs.Filter | src/main/java/com/theociobanoiu/kycmcp/repository/ClientRepository.java:39-46 | A WHERE clause keeps exactly the rows that satisfy it. Each row appears as often as in the table. |
| Seqs.FilterAppend | src/main/java/com/theociobanoiu/kycmcp/repository/ClientRepository.java:39-46 | Filtering a concatenation is concatenating the filtered parts, so the kept rows stay in table order. |
| Seqs.FilterCongruent | src/main/java/com/theociobanoiu/kycmcp/repository/PersonRepository.java:17-25 | Two WHERE clauses that agree on every row give the same result. |
| Seqs.FilterAll | src/main/java/com/theociobanoiu/kycmcp/repository/ClientRepository.java:39-43 | A WHERE clause true of every row returns the whole table. |
| Seqs.FilterNone | src/main/java/com/theociobanoiu/kycmcp/repository/PersonRepository.java:15 | A WHERE clause true of no row returns nothing. |
| Entities.Client.constructor | src/main/java/com/theociobanoiu/kycmcp/model/entities/Client.java:16-49 | `new Client()` has every field null, including the id, which only persistence generates. |
| Entities.Client.Hydrate | src/main/java/com/theociobanoiu/kycmcp/model/entities/Client.java:16-49 | An entity loaded from a row holds exactly that row's columns. |
| Entities.Client.OnCreate | src/main/java/com/theociobanoiu/kycmcp/model/entities/Client.java:52-56 | `@PrePersist` sets both timestamps to the current clock reading and changes nothing else. |
| Entities.Client.OnUpdate | src/main/java/com/theociobanoiu/kycmcp/model/entities/Client.java:58-61 | `@PreUpdate` sets only `updatedAt`; `createdAt` and every other field are unchanged. |
| Entities.Person.Detached | src/main/java/com/theociobanoiu/kycmcp/model/dto/PersonDTO.java:62-77 | A person entity built from column values holds exactly those columns and no client. |
| Entities.Person.OnCreate | src/main/java/com/theociobanoiu/kycmcp/model/entities/Client.java:52-56 | The person's `@PrePersist` sets both timestamps, like Client's, and keeps its client. |
| Store.TableHoldsEveryRow | src/main/java/com/theociobanoiu/kycmcp/service/impl/ClientServiceImpl.java:79 | When the order lists each key of the map, `findAll` lists exactly the stored rows. |
| Store.ClientRowsMonotone | src/main/java/com/theociobanoiu/kycmcp/model/entities/Client.java:18-49 | A client row stays valid when the next id and the clock move forward. |
| Store.PersonRowsMonotone | src/main/java/com/theociobanoiu/kycmcp/service/impl/PersonServiceImpl.java:37-41 | A person row stays valid when clients are added, the next id grows and the clock moves forward. |
| Store.InsertClientKeeps | src/main/java/com/theociobanoiu/kycmcp/model/entities/Client.java:18-56 | Inserting a storable client under the next id, stamped with a later clock reading, keeps the store invariant. The next id is not yet in use. |
| Store.UpdateClientKeeps | src/main/java/com/theociobanoiu/kycmcp/model/entities/Client.java:45-61 | Rewriting a stored client with a later update time keeps the invariant, provided its stored creation time is kept. |
| Store.InsertPersonKeeps | src/main/java/com/theociobanoiu/kycmcp/service/impl/PersonServiceImpl.java:37-41 | Appending a person of a stored client under the next person id keeps the store invariant. |
| Store.KycStore.Table | src/main/java/com/theociobanoiu/kycmcp/service/impl/ClientServiceImpl.java:79 | `findAll` lists exactly the stored client rows. |
| Store.KycStore.RowInTable | src/main/java/com/theociobanoiu/kycmcp/service/impl/ClientServiceImpl.java:126 | Every stored key's row is listed by `findAll` and carries that key as its id. |
| Store.KycStore.constructor | src/main/java/com/theociobanoiu/kycmcp/service/impl/ClientServiceImpl.java:27-28 | The empty store satisfies the invariant. |
| Store.KycStore.FindById | src/main/java/com/theociobanoiu/kycmcp/service/impl/ClientServiceImpl.java:66 | `findById` gives null exactly for an unknown id. Otherwise it gives a fresh entity holding the stored row. |
| Store.KycStore.SaveClient | src/main/java/com/theociobanoiu/kycmcp/model/entities/Client.java:18-61 | `save` outcomes, each with the whole new store. A fault fails, and so does a row with a blank name, no type or no risk level; both change nothing. A new entity gets the next id and both timestamps. A loaded one is handed back as it stands. If it differs from its stored row in an updatable column, it is written with a new update time and its stored creation time. Otherwise nothing in the store changes and the clock does not advance. The invariant holds after. |
| Store.KycStore.Insert | src/main/java/com/theociobanoiu/kycmcp/model/entities/Client.java:18-20 | On the insert path, the row is the entity with the next id, stamped created and updated at the new clock reading, added at the end of the order. |
| Store.KycStore.Update | src/main/java/com/theociobanoiu/kycmcp/model/entities/Client.java:45-61 | On the update path, the result is the entity as it was before `@PreUpdate`. A dirty entity runs the hook and its row is rewritten with the stored creation time and the new update time. A clean one changes nothing. The order, the persons and both generators are unchanged. |
| Store.KycStore.SavePerson | src/main/java/com/theociobanoiu/kycmcp/service/impl/PersonServiceImpl.java:41 | Saving a new person appends it under the next person id, stamped at the new clock reading, or on a fault changes nothing. The client generator is untouched. |
| ClientRepository.SearchClients | src/main/java/com/theociobanoiu/kycmcp/repository/ClientRepository.java:39-46 | The result is exactly the stored clients meeting every non-null criterion, each as often as stored. The criteria are: the lower-cased name contains the lower-cased search name, the type is equal, the risk level is equal. |
| ClientRepository.SearchWithoutCriteria | src/main/java/com/theociobanoiu/kycmcp/repository/ClientRepository.java:39-43 | With all three criteria null, the search returns the whole table, in order. |
| ClientRepository.SearchEmptyName | src/main/java/com/theociobanoiu/kycmcp/repository/ClientRepository.java:41 | The empty name constrains nothing: it gives the same result as a null name. |
| ClientRepository.SearchIsConjunction | src/main/java/com/theociobanoiu/kycmcp/repository/ClientRepository.java:40-43 | The criteria combine by AND: the full search equals the name search followed by the type and risk filter. |
| ClientRepository.SearchConjunctionStep | src/main/java/com/theociobanoiu/kycmcp/repository/ClientRepository.java:40-43 | The same AND law, stated on the filters themselves. |
| ClientRepository.SearchExample | src/main/java/com/theociobanoiu/kycmcp/repository/ClientRepository.java:41 | "abc" finds "ABC Corp" and "xabcx" and does not find "Other". |
| ClientRepository.FindByClientType | src/main/java/com/theociobanoiu/kycmcp/service/impl/ClientServiceImpl.java:140 | The type query returns exactly the clients of that type. Each appears as often as in the table. |
| ClientRepository.FindByRiskLevel | src/main/java/com/theociobanoiu/kycmcp/service/impl/ClientServiceImpl.java:155 | The risk query returns exactly the clients at that level. Each appears as often as in the table. |
| ClientRepository.FindByClientTypeIsSearch | src/main/java/com/theociobanoiu/kycmcp/repository/ClientRepository.java:42 | The type query is the search with only that type given. |
| ClientRepository.FindByRiskLevelIsSearch | src/main/java/com/theociobanoiu/kycmcp/repository/ClientRepository.java:43 | The risk query is the search with only that level given. |
| ClientRepository.InsertByName | src/main/java/com/theociobanoiu/kycmcp/repository/ClientRepository.java:28 | Inserting into the ordered list adds exactly that client. |
| ClientRepository.SortByName | src/main/java/com/theociobanoiu/kycmcp/repository/ClientRepository.java:28 | `ORDER BY name` permutes the rows (same multiset). |
| ClientRepository.InsertSorted | src/main/java/com/theociobanoiu/kycmcp/repository/ClientRepository.java:28 | Inserting into a name-ordered list keeps it ordered. |
| ClientRepository.SortSorted | src/main/java/com/theociobanoiu/kycmcp/repository/ClientRepository.java:28 | The sorted list is ordered by name ascending. |
| ClientRepository.FindByRiskLevelOrderByNameAsc | src/main/java/com/theociobanoiu/kycmcp/repository/ClientRepository.java:22-28 | The result is exactly the clients at that level, each as often as stored, ordered by name ascending. |
| PersonRepository.FindByClientId | src/main/java/com/theociobanoiu/kycmcp/repository/PersonRepository.java:15 | The result is exactly the stored persons of that client, each as often as stored. |
| PersonRepository.FindByRelationshipType | src/main/java/com/theociobanoiu/kycmcp/repository/PersonRepository.java:17 | The result is exactly the stored persons with that relationship type, each as often as stored. |
| PersonRepository.FindByFullNameContaining | src/main/java/com/theociobanoiu/kycmcp/repository/PersonRepository.java:19-22 | A null argument matches no row. Otherwise the result is exactly the persons with both names whose lower-cased `first + " " + last` contains the lower-cased argument, each as often as stored. |
| PersonRepository.FullNameMatchesFullName | src/main/java/com/theociobanoiu/kycmcp/repository/PersonRepository.java:19-22 | For a person with both names, the queried concatenation is the entity's full name. |
| PersonRepository.FullNameFindsEachPart | src/main/java/com/theociobanoiu/kycmcp/repository/PersonRepository.java:19-22 | A person is found by the first name alone and by the last name alone. |
| PersonRepository.FindAllBeneficialOwners | src/main/java/com/theociobanoiu/kycmcp/repository/PersonRepository.java:24-25 | The result is exactly the stored beneficial owners, each as often as stored. |
| PersonRepository.BeneficialOwnersByType | src/main/java/com/theociobanoiu/kycmcp/repository/PersonRepository.java:17-25 | The literal beneficial-owner query equals the derived query for BENEFICIAL_OWNER, in the same order. |
| ClientDto.FromList | src/main/java/com/theociobanoiu/kycmcp/model/dto/ClientDTO.java:58-62 | `fromList` has the same length, and element i is `from` of client i. |
| ClientDto.FromListMembers | src/main/java/com/theociobanoiu/kycmcp/model/dto/ClientDTO.java:26-62 | The views in a list are exactly the views of its clients, and none carries persons. |
| ClientDto.ToEntity | src/main/java/com/theociobanoiu/kycmcp/model/dto/ClientDTO.java:65-74 | `toEntity` gives a fresh entity with the six client fields copied and no id or timestamps. |
| ClientDto.FromThenToEntity | src/main/java/com/theociobanoiu/kycmcp/model/dto/ClientDTO.java:26-74 | `from` keeps all nine columns and sets no persons. `from` then `toEntity` gives back the client with only the id and timestamps cleared. |
| ClientDto.FromWithPersonsShape | src/main/java/com/theociobanoiu/kycmcp/model/dto/ClientDTO.java:42-55 | `fromWithPersons` agrees with `from` on every scalar field. Its persons are the given persons converted one by one, with the same length and order. |
| ClientDto.WithoutPersonsLaws | src/main/java/com/theociobanoiu/kycmcp/model/dto/ClientDTO.java:77-80 | `withoutPersons` nulls the persons, keeps every other field, and is idempotent. |
| ClientDto.WithPersonsLaws | src/main/java/com/theociobanoiu/kycmcp/model/dto/ClientDTO.java:77-86 | `withPersons(ps)` carries exactly ps, and `withoutPersons` undoes it. |
| PersonDto.FromList | src/main/java/com/theociobanoiu/kycmcp/model/dto/PersonDTO.java:55-59 | `fromList` has the same length, and element i is `from` of person i. |
| PersonDto.FromListMembers | src/main/java/com/theociobanoiu/kycmcp/model/dto/PersonDTO.java:55-59 | The views in a list are exactly the views of its persons. |
| PersonDto.ToEntity | src/main/java/com/theociobanoiu/kycmcp/model/dto/PersonDTO.java:62-77 | `toEntity` gives a fresh entity with the eleven person fields copied and no id, timestamps or client. |
| PersonDto.FromThenToEntity | src/main/java/com/theociobanoiu/kycmcp/model/dto/PersonDTO.java:32-77 | `from` then `toEntity` gives back the person with only the id, timestamps and client cleared. |
| PersonDto.FromKeepsIdentity | src/main/java/com/theociobanoiu/kycmcp/model/dto/PersonDTO.java:32-52 | `from` keeps the id and timestamps, derives the full name, and takes the client id and name from the person's client. |
| PersonDto.ForCreationThenToEntity | src/main/java/com/theociobanoiu/kycmcp/model/dto/PersonDTO.java:62-111 | `forCreation(...).toEntity()` holds exactly the arguments. `forCreation` leaves id, timestamps, client id and client name null, and joins the full name as `first + " " + last`. |
| CreateClientRequest.ToEntity | src/main/java/com/theociobanoiu/kycmcp/model/dto/request/CreateClientRequest.java:50-58 | `toEntity` gives a fresh entity with the four strings trimmed (null kept null), the type copied, and no risk level, id or timestamps. |
| CreateClientRequest.ValidRequestEntity | src/main/java/com/theociobanoiu/kycmcp/model/dto/request/CreateClientRequest.java:20-58 | A valid request's entity has a non-empty, non-blank name and the request's type. It never has a risk level, so it is never storable. |
| CreateClientRequest.TrimRoundTrip | src/main/java/com/theociobanoiu/kycmcp/model/dto/request/CreateClientRequest.java:37-58 | `from(toEntity(r)).toEntity()` equals `toEntity(r)`. |
| CreateClientRequest.FromThenToEntity | src/main/java/com/theociobanoiu/kycmcp/model/dto/request/CreateClientRequest.java:37-58 | `from` then `toEntity` changes a client's five fields only by trimming them, and keeps nothing else. |
| CreatePersonRequest.ToEntity | src/main/java/com/theociobanoiu/kycmcp/model/dto/request/CreatePersonRequest.java:49-64 | `toEntity` gives a fresh entity with the eight strings trimmed (null kept null), date of birth, type and ownership copied, and no client. |
| CreatePersonRequest.ValidRequestEntity | src/main/java/com/theociobanoiu/kycmcp/model/dto/request/CreatePersonRequest.java:14-41 | A valid request's entity has non-empty, non-blank first and last names, a relationship type and an ownership within [0, 100] or null. |
| CreatePersonRequest.EntityStringsTrimmed | src/main/java/com/theociobanoiu/kycmcp/model/dto/request/CreatePersonRequest.java:49-61 | Every string of the built entity is already trimmed. |
| ClientService.CreateClientCounterexample | src/main/java/com/theociobanoiu/kycmcp/model/dto/request/CreateClientRequest.java:50-58 | The request ("Acme Ltd", COMPANY) is valid, but its entity breaks the NOT NULL `risk_level` column. The same entity with a risk level is storable. |
| ClientService.ClientServiceImpl.CreateClientAsWritten | src/main/java/com/theociobanoiu/kycmcp/service/impl/ClientServiceImpl.java:31-45 | As written, every `createClient` fails with a "Failed to create client: " error and stores nothing. |
| ClientService.ClientServiceImpl.CreateClient | src/main/java/com/theociobanoiu/kycmcp/service/impl/ClientServiceImpl.java:31-45 | `createClient` with a supplied initial risk level fails exactly on a fault or an invalid request. A failure stores nothing and has the "Failed to create client: " prefix. On success the new row is the trimmed request with that level, under the next client id and one new clock reading. It is appended to the table order, the client generator advances by one, and nothing else changes; the result is `from` of the row, and `getClientDetails` returns it with no persons. |
| ClientService.ClientServiceImpl.StorableIffValid | src/main/java/com/theociobanoiu/kycmcp/model/entities/Client.java:22-43 | With a risk level supplied, the request's entity passes the column constraints exactly when the request is valid. |
| ClientService.ClientServiceImpl.NewClientDetails | src/main/java/com/theociobanoiu/kycmcp/service/impl/ClientServiceImpl.java:66-72 | A stored client that no person belongs to reads back with an empty persons list. |
| ClientService.ClientServiceImpl.SearchClients | src/main/java/com/theociobanoiu/kycmcp/service/impl/ClientServiceImpl.java:48-55 | The result is the views, without persons, of exactly the stored clients that meet every given criterion. |
| ClientService.ClientServiceImpl.GetClientDetails | src/main/java/com/theociobanoiu/kycmcp/service/impl/ClientServiceImpl.java:58-73 | Empty exactly for a null or unknown id. Otherwise the client's view, whose persons are the views of exactly that client's persons. |
| ClientService.ClientServiceImpl.GetAllClients | src/main/java/com/theociobanoiu/kycmcp/service/impl/ClientServiceImpl.java:76-83 | The views, without persons, of every stored client and nothing else. |
| ClientService.ClientServiceImpl.GetHighRiskClients | src/main/java/com/theociobanoiu/kycmcp/service/impl/ClientServiceImpl.java:86-93 | The views of exactly the HIGH clients, ordered by name ascending. |
| ClientService.ClientServiceImpl.ClientExists | src/main/java/com/theociobanoiu/kycmcp/service/impl/ClientServiceImpl.java:121-129 | True exactly when the id is non-null and a stored client has it. |
| ClientService.ClientServiceImpl.GetClientsByType | src/main/java/com/theociobanoiu/kycmcp/service/impl/ClientServiceImpl.java:132-144 | Empty for a null type, never the whole table. Otherwise the views of exactly the clients of that type. |
| ClientService.ClientServiceImpl.GetClientsByRiskLevel | src/main/java/com/theociobanoiu/kycmcp/service/impl/ClientServiceImpl.java:147-159 | Empty for a null level, never the whole table. Otherwise the views of exactly the clients at that level. |
| ClientService.ClientServiceImpl.NullPoliciesDiffer | src/main/java/com/theociobanoiu/kycmcp/service/impl/ClientServiceImpl.java:131-159 | A search with no criteria returns every client, while a null type or level returns nothing. |
| ClientService.ClientServiceImpl.UpdateClientRiskLevel | src/main/java/com/theociobanoiu/kycmcp/service/impl/ClientServiceImpl.java:97-118 | The checks run in order, each leaving the store unchanged: a null id gives empty, even with a null level; a null level throws IllegalArgumentException; an unknown id gives empty; a failing save propagates. Otherwise the result is the view of the client with the new level and its previous update time, since the view is built before the commit flush. A changed level is stored with a strictly later update time (the clock advances by one), and the creation time and all else are kept. The same level leaves the store and the clock unchanged. The table order, the persons and both generators are unchanged. |
| PersonService.PersonServiceImpl.AddPersonToClient | src/main/java/com/theociobanoiu/kycmcp/service/impl/PersonServiceImpl.java:28-51 | A null client id and an unknown one ("Client not found with ID: <id>") both fail, and so does a failing save ("Failed to add person to client: "). None of these stores anything. Otherwise the trimmed request's person is appended under the next person id, attached to the client. The person generator and the clock advance by one, and the clients, their order and the client generator are unchanged. The view names that client's id and name. |
| PersonService.PersonServiceImpl.GetPersonsByClient | src/main/java/com/theociobanoiu/kycmcp/service/impl/PersonServiceImpl.java:54-66 | Empty for a null or unknown id. Otherwise the views of exactly that client's persons. |
| PersonService.PersonServiceImpl.GetBeneficialOwners | src/main/java/com/theociobanoiu/kycmcp/service/impl/PersonServiceImpl.java:69-76 | The views of exactly the beneficial owners, of every client. |
| KycMcpTools.FoundMessage | src/main/java/com/theociobanoiu/kycmcp/mcp/tools/KycMcpTools.java:45 | The message starts with "Found " and ends with " clients matching search criteria". |
| KycMcpTools.FoundMessageCount | src/main/java/com/theociobanoiu/kycmcp/mcp/tools/KycMcpTools.java:45-46 | The number between the fixed prefix and suffix reads back as the count. |
| KycMcpTools.FoundMessageInjective | src/main/java/com/theociobanoiu/kycmcp/mcp/tools/KycMcpTools.java:45 | Different counts give different messages. |
| KycMcpTools.Criteria | src/main/java/com/theociobanoiu/kycmcp/mcp/tools/KycMcpTools.java:48-51 | The criteria echo has exactly the keys name and riskLevel. Each holds the given value, or "any" when absent. |
| KycMcpTools.CreateErrorResponse | src/main/java/com/theociobanoiu/kycmcp/mcp/tools/KycMcpTools.java:65-72 | The error envelope has exactly the keys success (false), error (the message), tool and timestamp. |
| KycMcpTools.KycMcpToolsImpl.SearchClients | src/main/java/com/theociobanoiu/kycmcp/mcp/tools/KycMcpTools.java:34-60 | A failure gives the error envelope for "search_clients". Otherwise exactly success, message, count, clients and searchCriteria: clients is the service search with no type constraint, count is its size, the message renders that count, and the criteria are echoed. |
| McpResponse.Success | src/main/java/com/theociobanoiu/kycmcp/model/response/McpServerResponse.java:21-23 | `success(d)` has status SUCCESS, data d and no error. |
| McpResponse.Error | src/main/java/com/theociobanoiu/kycmcp/model/response/McpServerResponse.java:25-27 | `error(code, msg)` has status ERROR, no data, and an error with that code and message. |
| McpResponse.WellFormedIffFactoryBuilt | src/main/java/com/theociobanoiu/kycmcp/model/response/McpServerResponse.java:15-27 | A response has a shape the private constructor allows exactly when a factory builds it. SUCCESS implies no error; ERROR implies no data. |
| McpResponse.FactoriesWellFormed | src/main/java/com/theociobanoiu/kycmcp/model/response/McpServerResponse.java:15-27 | Both factories build well-formed responses, and a success is never an error. |

## Left out

- Persistence:
  - JPA, the database, Spring transactions and `@Transactional` rollback are left out. Each service method is one atomic step on the in-memory `KycStore`, with no concurrency.
  - `findById` materialises a fresh detached entity, and `save` writes the entity's columns back.
  - `@PreUpdate` runs at the commit flush, and only for a dirty entity. The model applies that flush at the end of `save`, because nothing later in the transaction reads the store. `save` still returns the entity's columns as they were before the hook ran.
- ClientService.ClientServiceImpl.UpdateClientRiskLevel: the documented behaviour is a returned view with a strictly later `updatedAt`. The code builds the view before the commit flush, and a same-level update makes no UPDATE at all. The model follows the code: the view carries the previous update time. Only a changed level gets a strictly later update time, and only in the stored row.
- Logging is left out, including the old risk level that `updateClientRiskLevel` only logs.
- Time:
  - `LocalDateTime.now()` is a logical clock that advances by one tick per row inserted or updated.
  - The tool's error timestamp is passed in as a clock reading. Its string format is not modelled.
  - `onCreate` reads the clock twice, so in the source `createdAt` and `updatedAt` of a new row may differ by the time between the two reads. The model takes one reading for both, so a new row has `createdAt == updatedAt`.
- Bean Validation:
  - The validator is not run. `Valid` predicates on the requests state the annotations.
  - The store's `Storable` check stands in for the entity constraints and the NOT NULL columns.
  - The `@Email` syntax check is a library regex and is not modelled.
  - The text of a constraint-violation exception is not modelled. It is a `ConstraintViolation` error whose message the model leaves opaque.
- Exception messages are not modelled beyond the fixed prefixes the source writes. A storage exception's own message is the `fault` string.
- The message "The given id must not be null" for a null id passed to `findById` comes from the persistence library. It is not written in this source.
- LIKE and LOWER:
  - `%` and `_` in a search name act as wildcards in the source. The searches require the name to hold neither, and then model plain substring containment.
  - `LOWER` lower-cases ASCII letters only.
- Ordering:
  - `ORDER BY name` is lexicographic order on character codes. Database collations are not modelled.
  - Rows with equal names keep their table order.
- Numbers:
  - Ids are unbounded integers, so `Long` overflow is not modelled.
  - `BigDecimal` ownership percentages are exact reals.
- The Person entity, ClientType and RiskLevel are not part of this source:
  - Person's fields are reconstructed from the fields `PersonDTO` reads. Its `@PrePersist` hook is assumed to follow Client's.
  - Its `getFullName` renders a null part as "null", as Java string concatenation does.
  - The column constraints of Person are unknown, so `SavePerson` checks none.
  - The two enums take the values the debug controller lists.
- Person.ToEntity: `PersonDTO.toEntity` and `CreatePersonRequest.toEntity` run eleven setter calls in order. The model builds the entity with all eleven columns at once, so the order of those calls is not modelled.
- The tool calls a two-argument `searchClients` that `ClientService` does not declare. The model uses the declared three-argument search with no client type.
- The `@Override` methods that `ClientService` does not declare (`updateClientRiskLevel`, `getClientsByType` and `getClientsByRiskLevel`) are modelled from the implementation. The `findByClientType` and `findByRiskLevel` queries they call, which `ClientRepository` does not declare, are modelled as derived equality queries.
- The debug HTTP controller and the tool-registration configuration are left out. They are framework wiring.
- `ClientStatus` is declared as a datatype. No operation uses it.
- `McpServerError`'s builder is the datatype's constructor.
- ClientRepository.SearchExample: states membership of the three example clients, not the exact result sequence.

## Findings

| source | as written | input that shows it | evidently intended | confidence | as-written member | corrected member |
|---|---|---|---|---|---|---|
| src/main/java/com/theociobanoiu/kycmcp/model/dto/request/CreateClientRequest.java:50-58 with src/main/java/com/theociobanoiu/kycmcp/model/entities/Client.java:41-43 and src/main/java/com/theociobanoiu/kycmcp/service/impl/ClientServiceImpl.java:34-43 | `toEntity` never sets `riskLevel`, and the `risk_level` column is `nullable = false`. So `createClient` saves an entity the column constraint refuses, and the call always fails with "Failed to create client: …". | `CreateClientRequest("Acme Ltd", COMPANY, null, null, null)`: valid, yet its entity has a null risk level | a new client receives an initial risk level before it is saved, and creation succeeds for every valid request | medium, not executed (depends on the database enforcing NOT NULL) | ClientService.ClientServiceImpl.CreateClientAsWritten | ClientService.ClientServiceImpl.CreateClient |
