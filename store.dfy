/**
 * The persistence store behind ClientRepository and PersonRepository (both
 * JpaRepository): an in-memory table of client rows keyed by generated id, the
 * order the rows were inserted in, the person rows, one id generator per
 * table (each has its own identity column) and the logical clock that stands in for LocalDateTime.now(). Entities are loaded
 * as fresh objects and saved back as row values.
 */
module Store {
  import opened Wrappers
  import opened Enums
  import opened Entities

  /** Why a write did not happen: a storage-layer fault, or a row that breaks
      the column constraints (the cause text of the latter is not modelled). */
  datatype StoreError = StorageFault(cause: string) | ConstraintViolation

  function Cause(e: StoreError): (cause: string) {
    match e
    case StorageFault(cause) => cause
    case ConstraintViolation => "constraint violation"
  }

  /** The rows of m listed in the order of their keys in `order`. */
  function TableOf(order: seq<int>, m: map<int, ClientData>): (r: seq<ClientData>)
    requires forall i :: 0 <= i < |order| ==> order[i] in m
    ensures |r| == |order|
    ensures forall i :: 0 <= i < |order| ==> r[i] == m[order[i]]
  {
    if order == [] then [] else [m[order[0]]] + TableOf(order[1..], m)
  }

  /** A table that lists every key exactly holds every row of the map. */
  lemma TableHoldsEveryRow(order: seq<int>, m: map<int, ClientData>)
    requires forall k :: k in order <==> k in m
    requires forall i :: 0 <= i < |order| ==> order[i] in m
    ensures forall c :: c in TableOf(order, m) <==> exists k :: k in m && m[k] == c
  {
    var t := TableOf(order, m);
    forall c | c in t ensures exists k :: k in m && m[k] == c {
      var i :| 0 <= i < |t| && t[i] == c;
      var key := order[i];
      assert key in m && m[key] == c;
    }
    forall k | k in m ensures m[k] in t {
      var i :| 0 <= i < |order| && order[i] == k;
      assert t[i] == m[k];
    }
  }

  /** Every stored client is persisted under its own id, listed once in
      `order`; every stored person is persisted and belongs to a stored
      client; each table's ids are below its own generator (the two identity
      columns are separate sequences); no timestamp is ahead of the clock. */
  ghost predicate StoreInvariant(clients: map<int, ClientData>, order: seq<int>, persons: seq<PersonData>,
                                 nextClientId: int, nextPersonId: int, clock: Timestamp)
  {
    && 1 <= nextClientId && 1 <= nextPersonId
    && ClientRows(clients, order, nextClientId, clock)
    && PersonRows(persons, clients, nextPersonId, clock)
  }

  ghost predicate ClientRows(clients: map<int, ClientData>, order: seq<int>, nextClientId: int, clock: Timestamp) {
    && (forall k :: k in order <==> k in clients)
    && (forall i, j :: 0 <= i < j < |order| ==> order[i] != order[j])
    && (forall k :: k in clients ==> ClientRow(k, clients[k], nextClientId, clock))
  }

  /** A stored client row: persisted under key k, which is below the generator,
      and last updated no later than the clock. */
  ghost predicate ClientRow(k: int, c: ClientData, nextClientId: int, clock: Timestamp) {
    c.id == Some(k) && Persisted(c) && 1 <= k < nextClientId && c.updatedAt.value <= clock
  }

  ghost predicate PersonRows(persons: seq<PersonData>, clients: map<int, ClientData>, nextPersonId: int, clock: Timestamp) {
    && (forall p :: p in persons ==> PersonRow(p, clients, nextPersonId, clock))
    && (forall i, j :: 0 <= i < j < |persons| ==> persons[i].id != persons[j].id)
  }

  /** A stored person row: persisted, owned by a stored client, its id below
      the generator, last updated no later than the clock. */
  ghost predicate PersonRow(p: PersonData, clients: map<int, ClientData>, nextPersonId: int, clock: Timestamp) {
    PersonPersisted(p) && p.clientId.value in clients && 1 <= p.id.value < nextPersonId && p.updatedAt.value <= clock
  }

  /** The row an insert stores: the entity's values with the generated id and both timestamps. */
  function InsertedRow(v: ClientData, id: int, now: Timestamp): (row: ClientData) {
    v.(id := Some(id), createdAt := Some(now), updatedAt := Some(now))
  }

  /** The row an update stores: the entity's values, the stored creation time, a new update time. */
  function UpdatedRow(v: ClientData, stored: ClientData, now: Timestamp): (row: ClientData) {
    v.(createdAt := stored.createdAt, updatedAt := Some(now))
  }

  /** Hibernate's dirty check at the flush: the entity differs from the row it
      was loaded from in a column the UPDATE writes (created_at is not updatable). */
  predicate Dirty(v: ClientData, stored: ClientData) {
    v.(createdAt := stored.createdAt) != stored
  }

  /** The client rows stay valid under a later id bound and a later clock. */
  lemma ClientRowsMonotone(clients: map<int, ClientData>, order: seq<int>, nextClientId: int, clock: Timestamp,
                           nextClientId': int, clock': Timestamp)
    requires ClientRows(clients, order, nextClientId, clock) && nextClientId <= nextClientId' && clock <= clock'
    ensures ClientRows(clients, order, nextClientId', clock')
  {
    forall k | k in clients ensures ClientRow(k, clients[k], nextClientId', clock') {
      assert ClientRow(k, clients[k], nextClientId, clock);
    }
  }

  /** The person rows stay valid with more clients, a later id bound and a later clock. */
  lemma PersonRowsMonotone(persons: seq<PersonData>, clients: map<int, ClientData>, clients': map<int, ClientData>,
                           nextPersonId: int, clock: Timestamp, nextPersonId': int, clock': Timestamp)
    requires PersonRows(persons, clients, nextPersonId, clock)
    requires clients.Keys <= clients'.Keys && nextPersonId <= nextPersonId' && clock <= clock'
    ensures PersonRows(persons, clients', nextPersonId', clock')
  {
    forall p | p in persons ensures PersonRow(p, clients', nextPersonId', clock') {
      assert PersonRow(p, clients, nextPersonId, clock);
    }
  }

  /** Inserting a storable entity under the next id, at a later clock reading, keeps the invariant. */
  lemma InsertClientKeeps(clients: map<int, ClientData>, order: seq<int>, persons: seq<PersonData>,
                          nextClientId: int, nextPersonId: int, clock: Timestamp, now: Timestamp, v: ClientData)
    requires StoreInvariant(clients, order, persons, nextClientId, nextPersonId, clock)
    requires clock <= now && Storable(v)
    ensures nextClientId !in clients
    ensures StoreInvariant(clients[nextClientId := InsertedRow(v, nextClientId, now)], order + [nextClientId], persons,
                           nextClientId + 1, nextPersonId, now)
  {
    var row := InsertedRow(v, nextClientId, now);
    var clients', o := clients[nextClientId := row], order + [nextClientId];
    ClientRowsMonotone(clients, order, nextClientId, clock, nextClientId + 1, now);
    forall k | k in clients' ensures ClientRow(k, clients'[k], nextClientId + 1, now) {
      if k != nextClientId {
        assert clients'[k] == clients[k];
      }
    }
    forall k ensures k in o <==> k in clients' {
      assert k in o <==> k in order || k == nextClientId;
    }
    forall i, j | 0 <= i < j < |o| ensures o[i] != o[j] {
      if j == |order| {
        assert order[i] in order;
      } else {
        assert o[i] == order[i] && o[j] == order[j];
      }
    }
    assert ClientRows(clients', o, nextClientId + 1, now);
    PersonRowsMonotone(persons, clients, clients', nextPersonId, clock, nextPersonId, now);
  }

  /** Rewriting a stored client with a storable entity's values, at a later
      clock reading, keeps the invariant. */
  lemma UpdateClientKeeps(clients: map<int, ClientData>, order: seq<int>, persons: seq<PersonData>,
                          nextClientId: int, nextPersonId: int, clock: Timestamp, now: Timestamp, k: int, v: ClientData)
    requires StoreInvariant(clients, order, persons, nextClientId, nextPersonId, clock)
    requires k in clients && clock < now && v.id == Some(k) && Storable(v)
    ensures StoreInvariant(clients[k := UpdatedRow(v, clients[k], now)], order, persons, nextClientId, nextPersonId, now)
  {
    assert ClientRow(k, clients[k], nextClientId, clock);
    var row := UpdatedRow(v, clients[k], now);
    var clients' := clients[k := row];
    assert clients'.Keys == clients.Keys;
    ClientRowsMonotone(clients, order, nextClientId, clock, nextClientId, now);
    forall k' | k' in clients' ensures ClientRow(k', clients'[k'], nextClientId, now) {
      if k' != k {
        assert clients'[k'] == clients[k'];
      }
    }
    assert ClientRows(clients', order, nextClientId, now);
    PersonRowsMonotone(persons, clients, clients', nextPersonId, clock, nextPersonId, now);
  }

  /** Appending a new person row of a stored client under the next person id keeps the invariant. */
  lemma InsertPersonKeeps(clients: map<int, ClientData>, order: seq<int>, persons: seq<PersonData>,
                          nextClientId: int, nextPersonId: int, clock: Timestamp, clock': Timestamp, row: PersonData)
    requires StoreInvariant(clients, order, persons, nextClientId, nextPersonId, clock)
    requires clock <= clock' && row.id == Some(nextPersonId) && PersonPersisted(row)
    requires row.clientId.value in clients && row.updatedAt.value <= clock'
    ensures StoreInvariant(clients, order, persons + [row], nextClientId, nextPersonId + 1, clock')
  {
    ClientRowsMonotone(clients, order, nextClientId, clock, nextClientId, clock');
    PersonRowsMonotone(persons, clients, clients, nextPersonId, clock, nextPersonId + 1, clock');
    var ps := persons + [row];
    forall p | p in ps ensures PersonRow(p, clients, nextPersonId + 1, clock') {
      if p != row {
        assert p in persons;
      }
    }
    forall i, j | 0 <= i < j < |ps| ensures ps[i].id != ps[j].id {
      if j == |persons| {
        assert PersonRow(ps[i], clients, nextPersonId, clock) by { assert ps[i] in persons; }
      } else {
        assert ps[i] == persons[i] && ps[j] == persons[j];
      }
    }
  }

  class KycStore {
    var clients: map<int, ClientData>
    var order: seq<int>
    var persons: seq<PersonData>
    var nextClientId: int
    var nextPersonId: int
    var clock: Timestamp

    ghost predicate Valid()
      reads this
    {
      StoreInvariant(clients, order, persons, nextClientId, nextPersonId, clock)
    }

    /** findAll(): the client rows, in insertion order. */
    function Table(): (r: seq<ClientData>)
      reads this
      requires Valid()
      ensures forall c :: c in r <==> exists k :: k in clients && clients[k] == c
    {
      assert forall i :: 0 <= i < |order| ==> order[i] in order;
      TableHoldsEveryRow(order, clients);
      TableOf(order, clients)
    }

    /** Every stored row is listed by findAll(). */
    lemma RowInTable(k: int)
      requires Valid() && k in clients
      ensures clients[k] in Table() && clients[k].id == Some(k)
    {
      var t := TableOf(order, clients);
      var i :| 0 <= i < |order| && order[i] == k;
      assert t[i] == clients[k];
    }

    constructor ()
      ensures Valid()
      ensures clients == map[] && order == [] && persons == [] && nextClientId == 1 && nextPersonId == 1 && clock == 0
    {
      clients, order, persons, nextClientId, nextPersonId, clock := map[], [], [], 1, 1, 0;
    }

    /** findById: the stored row as a fresh entity object, or null. */
    method FindById(id: int) returns (c: Client?)
      requires Valid()
      ensures (c == null) == (id !in clients)
      ensures c != null ==> fresh(c) && c.Value() == clients[id]
    {
      if id in clients {
        c := new Client.Hydrate(clients[id]);
      } else {
        c := null;
      }
    }

    /** save(client). A new entity (no id) is inserted under the next id after
        @PrePersist. A loaded one is merged: save hands it back as it stands, and
        at the commit flush a dirty one runs @PreUpdate and is written back with
        the stored creation time (the column is not updatable), while a clean one
        issues no UPDATE. `fault` is a storage-layer failure; a row breaking the
        column constraints is refused. */
    method SaveClient(c: Client, fault: Option<string>) returns (r: Result<ClientData, StoreError>)
      requires Valid()
      requires c.id.None? || c.id.value in clients
      modifies this, c
      ensures Valid()
      ensures fault.Some? ==> r == Failure(StorageFault(fault.value))
      ensures fault.None? && !Storable(old(c.Value())) ==> r == Failure(ConstraintViolation)
      ensures r.Failure? ==> unchanged(this) && unchanged(c)
      ensures r.Success? <==> fault.None? && Storable(old(c.Value()))
      ensures r.Success? ==> persons == old(persons) && nextPersonId == old(nextPersonId)
      ensures r.Success? && old(c.id).None? ==>
        var row := old(c.Value()).(id := Some(old(nextClientId)), createdAt := Some(clock), updatedAt := Some(clock));
        && r.value == row && c.Value() == row && clock == old(clock) + 1
        && old(nextClientId) !in old(clients)
        && clients == old(clients)[old(nextClientId) := row] && order == old(order) + [old(nextClientId)]
        && nextClientId == old(nextClientId) + 1
      ensures r.Success? && old(c.id).Some? ==>
        var k := old(c.id).value;
        var v := old(c.Value());
        && r.value == v && order == old(order) && nextClientId == old(nextClientId)
        && (Dirty(v, old(clients[k])) ==>
              && clock == old(clock) + 1 && c.Value() == v.(updatedAt := Some(clock))
              && clients == old(clients)[k := v.(createdAt := old(clients[k]).createdAt, updatedAt := Some(clock))])
        && (!Dirty(v, old(clients[k])) ==> clock == old(clock) && c.Value() == v && clients == old(clients))
    {
      if fault.Some? {
        return Failure(StorageFault(fault.value));
      }
      if !Storable(c.Value()) {
        return Failure(ConstraintViolation);
      }
      var row;
      if c.id.None? {
        row := Insert(c);
      } else {
        row := Update(c);
      }
      r := Success(row);
    }

    /** The insert path of save: next id, @PrePersist, new row. */
    method Insert(c: Client) returns (row: ClientData)
      requires Valid() && c.id.None? && Storable(c.Value())
      modifies this, c
      ensures Valid()
      ensures clock == old(clock) + 1 && persons == old(persons) && nextPersonId == old(nextPersonId)
      ensures row == old(c.Value()).(id := Some(old(nextClientId)), createdAt := Some(clock), updatedAt := Some(clock))
      ensures c.Value() == row
      ensures old(nextClientId) !in old(clients)
      ensures clients == old(clients)[old(nextClientId) := row] && order == old(order) + [old(nextClientId)]
      ensures nextClientId == old(nextClientId) + 1
    {
      var v, now, id := c.Value(), clock + 1, nextClientId;
      InsertClientKeeps(clients, order, persons, id, nextPersonId, clock, now, v);
      c.id := Some(id);
      c.OnCreate(now);
      row := c.Value();
      assert row == InsertedRow(v, id, now);
      clients := clients[id := row];
      order := order + [id];
      nextClientId := id + 1;
      clock := now;
    }

    /** The update path of save. The entity is handed back as save sees it,
        before the flush; the flush at commit is applied here, since nothing later
        in the transaction reads the store. A dirty entity runs @PreUpdate and its
        row is rewritten with the stored creation time; a clean one changes nothing. */
    method Update(c: Client) returns (row: ClientData)
      requires Valid() && c.id.Some? && c.id.value in clients && Storable(c.Value())
      modifies this, c
      ensures Valid()
      ensures row == old(c.Value())
      ensures persons == old(persons) && order == old(order)
      ensures nextClientId == old(nextClientId) && nextPersonId == old(nextPersonId)
      ensures Dirty(row, old(clients[c.id.value])) ==>
        && clock == old(clock) + 1 && c.Value() == row.(updatedAt := Some(clock))
        && clients == old(clients)[old(c.id.value) := row.(createdAt := old(clients[c.id.value]).createdAt, updatedAt := Some(clock))]
      ensures !Dirty(row, old(clients[c.id.value])) ==> clock == old(clock) && c.Value() == row && clients == old(clients)
    {
      var k := c.id.value;
      row := c.Value();
      if Dirty(row, clients[k]) {
        var now := clock + 1;
        assert ClientRow(k, clients[k], nextClientId, clock);
        UpdateClientKeeps(clients, order, persons, nextClientId, nextPersonId, clock, now, k, row);
        c.OnUpdate(now);
        assert c.Value().(createdAt := clients[k].createdAt) == UpdatedRow(row, clients[k], now);
        clients := clients[k := UpdatedRow(row, clients[k], now)];
        clock := now;
      }
    }

    /** save(person) for a new person attached to a stored client: inserted under
        the next person id after @PrePersist. `fault` is a storage-layer failure. */
    method SavePerson(p: Person, fault: Option<string>) returns (r: Result<PersonData, StoreError>)
      requires Valid()
      requires p.id.None? && p.client != null && p.client.id.Some? && p.client.id.value in clients
      modifies this, p
      ensures Valid()
      ensures fault.Some? ==> r == Failure(StorageFault(fault.value)) && unchanged(this) && unchanged(p)
      ensures fault.None? ==>
        var row := old(p.Value()).(id := Some(old(nextPersonId)), createdAt := Some(clock), updatedAt := Some(clock));
        && r == Success(row) && p.Value() == row && p.client == old(p.client)
        && persons == old(persons) + [row] && clients == old(clients) && order == old(order)
        && nextClientId == old(nextClientId) && nextPersonId == old(nextPersonId) + 1 && clock == old(clock) + 1
    {
      if fault.Some? {
        return Failure(StorageFault(fault.value));
      }
      var now, id := clock + 1, nextPersonId;
      p.id := Some(id);
      p.OnCreate(now);
      var row := p.Value();
      InsertPersonKeeps(clients, order, persons, nextClientId, id, clock, now, row);
      persons, nextPersonId, clock := persons + [row], id + 1, now;
      r := Success(row);
    }
  }
}
