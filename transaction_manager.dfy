/** nextstep.transaction.DataSourceTransactionManager: a transaction manager
    over one data source and the connection registry.

    `getTransaction` takes the registry's connection for the data source (an
    existing binding, or a new connection that it binds) and returns a status
    carrying the definition's isolation level, propagation behaviour and
    read-only flag with that connection. `commit` and `rollback` commit or
    roll back the status's connection and then release the data source's
    binding. Every SQLException becomes a TransactionException; when the
    commit or rollback itself throws, the binding is not released. */
module TransactionManagerModel {
  import opened Jdbc
  import DataSourceUtils

  datatype TransactionDefinition = TransactionDefinition(isolationLevel: int, propagationBehavior: int, readOnly: bool)

  datatype TransactionStatus = TransactionStatus(isolationLevel: int, propagationBehavior: int, readOnly: bool, connection: Connection)

  /** The status `getTransaction` builds for a definition and a connection. */
  function StatusFor(definition: TransactionDefinition, connection: Connection): (s: TransactionStatus)
    ensures s.isolationLevel == definition.isolationLevel
    ensures s.propagationBehavior == definition.propagationBehavior
    ensures s.readOnly == definition.readOnly
    ensures s.connection == connection
  {
    TransactionStatus(definition.isolationLevel, definition.propagationBehavior, definition.readOnly, connection)
  }

  class DataSourceTransactionManager {
    const dataSource: DataSource
    const registry: DataSourceUtils.TransactionSynchronizationManager

    constructor (dataSource: DataSource, registry: DataSourceUtils.TransactionSynchronizationManager)
      ensures this.dataSource == dataSource && this.registry == registry
    {
      this.dataSource := dataSource;
      this.registry := registry;
    }

    /** `getTransaction(definition)`: a bound connection is reused with no
        driver call; otherwise one is acquired and bound, and a failing
        acquisition throws TransactionException and binds nothing. */
    method GetTransaction(definition: TransactionDefinition) returns (r: Result<TransactionStatus>)
      requires registry.Valid()
      modifies registry, dataSource
      ensures registry.Valid()
      ensures r.Ok? ==> r.value == StatusFor(definition, r.value.connection)
      ensures r.Ok? ==> dataSource in registry.resources && registry.resources[dataSource] == r.value.connection
      ensures dataSource in old(registry.resources) ==>
        r == Ok(StatusFor(definition, old(registry.resources)[dataSource])) &&
        registry.resources == old(registry.resources) && dataSource.trace == old(dataSource.trace)
      ensures dataSource !in old(registry.resources) ==>
        dataSource.trace == old(dataSource.trace) + [Event(Conn(|old(dataSource.trace)|), Call.GetConnection, Call.GetConnection !in dataSource.faults)]
      ensures dataSource !in old(registry.resources) && Call.GetConnection in dataSource.faults ==>
        r == Err(TransactionFailed) && registry.resources == old(registry.resources)
      ensures dataSource !in old(registry.resources) && Call.GetConnection !in dataSource.faults ==>
        r.Ok? && fresh(r.value.connection) && r.value.connection.id == |old(dataSource.trace)| &&
        registry.resources == old(registry.resources)[dataSource := r.value.connection]
    {
      var obtained := DataSourceUtils.GetConnection(registry, dataSource);
      if obtained.Err? {
        return Err(TransactionFailed);
      }
      r := Ok(StatusFor(definition, obtained.value));
    }

    /** `commit(status)`: commits the status's connection, then releases the
        binding; a throwing commit gives TransactionException and keeps it. */
    method Commit(status: TransactionStatus) returns (e: Option<Exc>)
      requires registry.Valid()
      modifies registry, status.connection.ds
      ensures registry.Valid()
      ensures status.connection.ds.trace == old(status.connection.ds.trace) + [Event(Conn(status.connection.id), Call.Commit, Call.Commit !in status.connection.ds.faults)]
      ensures e.None? <==> Call.Commit !in status.connection.ds.faults
      ensures e.Some? ==> e == Some(TransactionFailed) && registry.resources == old(registry.resources)
      ensures e.None? ==> registry.resources == old(registry.resources) - {dataSource}
      ensures registry.actualTransactionActive == old(registry.actualTransactionActive)
    {
      var failed := status.connection.Commit();
      if failed.Some? {
        return Some(TransactionFailed);
      }
      registry.UnbindResource(dataSource);
      e := None;
    }

    /** `rollback(status)`: rolls back the status's connection, then releases
        the binding; a throwing rollback gives TransactionException and keeps
        it. */
    method Rollback(status: TransactionStatus) returns (e: Option<Exc>)
      requires registry.Valid()
      modifies registry, status.connection.ds
      ensures registry.Valid()
      ensures status.connection.ds.trace == old(status.connection.ds.trace) + [Event(Conn(status.connection.id), Call.Rollback, Call.Rollback !in status.connection.ds.faults)]
      ensures e.None? <==> Call.Rollback !in status.connection.ds.faults
      ensures e.Some? ==> e == Some(TransactionFailed) && registry.resources == old(registry.resources)
      ensures e.None? ==> registry.resources == old(registry.resources) - {dataSource}
      ensures registry.actualTransactionActive == old(registry.actualTransactionActive)
    {
      var failed := status.connection.Rollback();
      if failed.Some? {
        return Some(TransactionFailed);
      }
      registry.UnbindResource(dataSource);
      e := None;
    }
  }
}
