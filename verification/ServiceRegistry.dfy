/**
 The registry's own methods and the three registration operations as one thread performs them,
 holding both locks throughout (backend/src/domain/services.py, backend/src/application/service_registration.py).
 */
module ServiceRegistry {
  import opened Wrappers
  import opened ServiceRegistration

  datatype RegistryError = ValueError

  class ServiceRegistry {
    const environment: set<Sid>
    var connectors: map<Sid, Connector>
    var registered: set<Sid>
    var poisoned: set<Sid>

    constructor (environment: set<Sid>)
      ensures this.environment == environment && registered == {} && poisoned == {}
      ensures connectors == map id | id in environment :: FromEnvironment(id)
    {
      this.environment := environment;
      connectors := map id | id in environment :: FromEnvironment(id);
      registered, poisoned := {}, {};
    }

    method GetConnector(id: Sid) returns (connector: Option<Connector>)
      ensures connector.Some? <==> id in connectors && id !in poisoned
      ensures connector.Some? ==> connector.value == connectors[id]
    {
      if id in poisoned { return None; }
      if id in connectors { return Some(connectors[id]); }
      return None;
    }

    /** The ids of `list_connectors`, gathered one by one. */
    method ServiceIds() returns (ids: set<Sid>)
      ensures ids == connectors.Keys - poisoned
    {
      ids := {};
      var rest := connectors.Keys;
      while rest != {}
        invariant rest <= connectors.Keys && ids == (connectors.Keys - rest) - poisoned
        decreases rest
      {
        var id :| id in rest;
        if id !in poisoned { ids := ids + {id}; }
        rest := rest - {id};
      }
    }

    /** `validates` is the outcome of the connector's validation; a taken id raises as well. */
    method Register(id: Sid, connector: Connector, validates: bool) returns (reply: Result<(), RegistryError>)
      modifies this
      ensures reply.Ok? <==> validates && id !in old(connectors)
      ensures connectors == if reply.Ok? then old(connectors)[id := connector] else old(connectors)
      ensures registered == if reply.Ok? then old(registered) + {id} else old(registered)
      ensures poisoned == old(poisoned)
    {
      if !validates || id in connectors { return Err(ValueError); }
      connectors := connectors[id := connector];
      registered := registered + {id};
      return Ok(());
    }

    /** A missing entry is not registered: the call replaces nothing and returns False. */
    method Replace(id: Sid, connector: Connector, expected: Option<Connector>, validates: bool) returns (reply: Result<bool, RegistryError>)
      modifies this`connectors
      ensures reply.Ok? <==> validates
      ensures reply == Ok(true) <==> validates && id in old(connectors) && (expected.Some? ==> old(connectors)[id] == expected.value)
      ensures connectors == if reply == Ok(true) then old(connectors)[id := connector] else old(connectors)
    {
      if !validates { return Err(ValueError); }
      if id !in connectors || (expected.Some? && connectors[id] != expected.value) { return Ok(false); }
      connectors := connectors[id := connector];
      return Ok(true);
    }

    method Remove(id: Sid, expected: Option<Connector>) returns (ok: bool)
      modifies this
      ensures ok <==> id in old(connectors) && (expected.Some? ==> old(connectors)[id] == expected.value)
      ensures connectors == if ok then old(connectors) - {id} else old(connectors)
      ensures registered == if ok then old(registered) - {id} else old(registered)
      ensures poisoned == old(poisoned)
    {
      if id !in connectors || (expected.Some? && connectors[id] != expected.value) { return false; }
      connectors := connectors - {id};
      registered := registered - {id};
      return true;
    }

    method Poison(id: Sid)
      modifies this`poisoned
      ensures poisoned == old(poisoned) + {id}
    {
      poisoned := poisoned + {id};
    }
  }

  class ServiceRegistrationApplicationService {
    const registry: ServiceRegistry
    var rows: map<Sid, Contents>

    /** The tables as the concurrent model sees them, no thread inside. */
    ghost function Tables(): World
      reads this, registry
    {
      World(rows, registry.connectors, registry.registered, registry.poisoned, registry.environment, None, map[], map[])
    }

    ghost predicate Consistent()
      reads this, registry
    {
      forall id :: Settled(Tables(), id)
    }

    constructor (registry: ServiceRegistry)
      requires registry.registered == {} && registry.poisoned == {}
      requires registry.connectors == map id | id in registry.environment :: FromEnvironment(id)
      ensures this.registry == registry && rows == map[] && Consistent()
    {
      this.registry := registry;
      rows := map[];
    }

    /** A new row, then its connector; nothing when the id is in use, and poison when the transaction raised ValueError. */
    method CreateService(id: Sid, contents: Contents, transaction: Transaction) returns (ok: bool)
      requires Consistent()
      modifies this, registry
      ensures Consistent()
      ensures ok <==> id !in registry.environment && id !in old(rows) && transaction == Commits
      ensures rows == if ok then old(rows)[id := contents] else old(rows)
      ensures registry.connectors == if ok then old(registry.connectors)[id := FromRow(contents)] else old(registry.connectors)
      ensures registry.poisoned == if transaction == RaisesValue && old(Visible(Tables(), id)).None?
                                   then old(registry.poisoned) + {id} else old(registry.poisoned)
      ensures transaction == Commits ==> Tables() == Written(old(Tables()), Create(id, contents))
    {
      ghost var before := Tables();
      assert Settled(before, id);
      var existing := registry.GetConnector(id);
      if existing.Some? { return false; }
      if transaction != Commits {
        if transaction == RaisesValue { registry.Poison(id); }
        assert forall other :: Settled(before, other) ==> Settled(Tables(), other);
        return false;
      }
      if id in rows { return false; }
      rows := rows[id := contents];
      var registered := registry.Register(id, FromRow(contents), true);
      if registered.Err? { assert false; }
      ok := true;
      assert forall other :: Settled(before, other) ==> Settled(Tables(), other);
    }

    /** New contents for the row of a visible service, and its connector rebuilt from them. */
    method UpdateService(id: Sid, contents: Contents, transaction: Transaction) returns (ok: bool)
      requires Consistent()
      modifies this, registry
      ensures Consistent()
      ensures ok <==> id in old(rows) && id !in old(registry.poisoned) && transaction == Commits
      ensures rows == if ok then old(rows)[id := contents] else old(rows)
      ensures registry.connectors == if ok then old(registry.connectors)[id := FromRow(contents)] else old(registry.connectors)
      ensures registry.registered == old(registry.registered) && registry.poisoned == old(registry.poisoned)
      ensures transaction == Commits ==> Tables() == Written(old(Tables()), Update(id, contents))
    {
      ghost var before := Tables();
      assert Settled(before, id);
      var current := registry.GetConnector(id);
      if current.None? || transaction != Commits || id !in rows { return false; }
      rows := rows[id := contents];
      var replaced := registry.Replace(id, FromRow(contents), current, true);
      if replaced != Ok(true) { assert false; }
      ok := true;
      assert forall other :: Settled(before, other) ==> Settled(Tables(), other);
    }

    /** The row and its connector go; an id without a row is left alone, environment ids among them. */
    method DeleteService(id: Sid, transaction: Transaction)
      requires Consistent()
      modifies this, registry
      ensures Consistent()
      ensures var removed := id in old(rows) && transaction == Commits;
              && rows == (if removed then old(rows) - {id} else old(rows))
              && registry.connectors == (if removed then old(registry.connectors) - {id} else old(registry.connectors))
              && registry.registered == (if removed then old(registry.registered) - {id} else old(registry.registered))
      ensures registry.poisoned == old(registry.poisoned)
      ensures transaction == Commits ==> Tables() == Written(old(Tables()), Delete(id))
    {
      ghost var before := Tables();
      assert Settled(before, id);
      var current := registry.GetConnector(id);
      if transaction != Commits || id !in rows { return; }
      rows := rows - {id};
      var ok := registry.Remove(id, current);
      if !ok { assert false; }
      assert forall other :: Settled(before, other) ==> Settled(Tables(), other);
    }
  }
}
