/** The connection registry: org.springframework.jdbc.datasource.DataSourceUtils
    over a single-context TransactionSynchronizationManager.

    The registry maps a data source to the connection bound for it and
    carries the "actual transaction active" flag. `getConnection` hands back
    the bound connection when there is one and otherwise acquires a new one
    and binds it; `releaseConnection` does nothing while a transaction is
    active and otherwise closes the connection and then unbinds it. */
module DataSourceUtils {
  import opened Jdbc

  class TransactionSynchronizationManager {
    var resources: map<DataSource, Connection>
    var actualTransactionActive: bool

    constructor ()
      ensures resources == map[] && !actualTransactionActive
      ensures Valid()
    {
      resources := map[];
      actualTransactionActive := false;
    }

    /** Every bound connection belongs to the data source it is bound for. */
    predicate Valid()
      reads this
    {
      forall k | k in resources :: resources[k].ds == k
    }

    /** `getResource(key)`: the bound connection, or nothing. */
    function GetResource(key: DataSource): (r: Option<Connection>)
      reads this
      ensures r.Some? <==> key in resources
      ensures r.Some? ==> r.value == resources[key]
    {
      if key in resources then Some(resources[key]) else None
    }

    method BindResource(key: DataSource, value: Connection)
      requires Valid() && value.ds == key
      modifies this
      ensures resources == old(resources)[key := value]
      ensures actualTransactionActive == old(actualTransactionActive)
      ensures Valid()
    {
      resources := resources[key := value];
    }

    method UnbindResource(key: DataSource)
      requires Valid()
      modifies this
      ensures resources == old(resources) - {key}
      ensures actualTransactionActive == old(actualTransactionActive)
      ensures Valid()
    {
      resources := resources - {key};
    }
  }

  /** `getConnection(dataSource)`: the bound connection if there is one, with
      nothing acquired; else a new connection, bound and returned; a failing
      acquisition throws CannotGetJdbcConnectionException carrying the cause
      and leaves the registry as it was. */
  method GetConnection(registry: TransactionSynchronizationManager, dataSource: DataSource) returns (r: Result<Connection>)
    requires registry.Valid()
    modifies registry, dataSource
    ensures registry.Valid()
    ensures registry.actualTransactionActive == old(registry.actualTransactionActive)
    ensures dataSource in old(registry.resources) ==>
      r == Ok(old(registry.resources)[dataSource]) &&
      registry.resources == old(registry.resources) && dataSource.trace == old(dataSource.trace)
    ensures dataSource !in old(registry.resources) ==>
      dataSource.trace == old(dataSource.trace) + [Event(Conn(|old(dataSource.trace)|), Call.GetConnection, Call.GetConnection !in dataSource.faults)]
    ensures dataSource !in old(registry.resources) && Call.GetConnection in dataSource.faults ==>
      r == Err(CannotGetJdbcConnection(Some(SqlException(Call.GetConnection)))) && registry.resources == old(registry.resources)
    ensures dataSource !in old(registry.resources) && Call.GetConnection !in dataSource.faults ==>
      r.Ok? && fresh(r.value) && r.value.id == |old(dataSource.trace)| && r.value.autoCommit && !r.value.closed &&
      registry.resources == old(registry.resources)[dataSource := r.value]
    ensures r.Ok? ==> r.value.ds == dataSource
  {
    var bound := registry.GetResource(dataSource);
    if bound.Some? {
      return Ok(bound.value);
    }
    var acquired := dataSource.GetConnection();
    if acquired.Err? {
      return Err(CannotGetJdbcConnection(Some(acquired.error)));
    }
    registry.BindResource(dataSource, acquired.value);
    r := acquired;
  }

  /** `releaseConnection(connection, dataSource)`: nothing while a
      transaction is active; else close and then unbind. A failing close
      throws CannotGetJdbcConnectionException without a cause and leaves the
      binding in place. */
  method ReleaseConnection(registry: TransactionSynchronizationManager, connection: Connection, dataSource: DataSource)
    returns (e: Option<Exc>)
    requires registry.Valid()
    modifies registry, connection, connection.ds
    ensures registry.Valid()
    ensures registry.actualTransactionActive == old(registry.actualTransactionActive)
    ensures connection.autoCommit == old(connection.autoCommit)
    ensures connection.closed == (old(connection.closed) || (!old(registry.actualTransactionActive) && Call.Close(ConnectionKind) !in connection.ds.faults))
    ensures old(registry.actualTransactionActive) ==>
      e.None? && registry.resources == old(registry.resources) &&
      connection.ds.trace == old(connection.ds.trace) && connection.closed == old(connection.closed)
    ensures !old(registry.actualTransactionActive) ==>
      connection.ds.trace == old(connection.ds.trace) + [CloseEvent(connection.ds.faults, Conn(connection.id), ConnectionKind)]
    ensures !old(registry.actualTransactionActive) && Call.Close(ConnectionKind) in connection.ds.faults ==>
      e == Some(CannotGetJdbcConnection(None)) && registry.resources == old(registry.resources)
    ensures !old(registry.actualTransactionActive) && Call.Close(ConnectionKind) !in connection.ds.faults ==>
      e.None? && connection.closed && registry.resources == old(registry.resources) - {dataSource}
  {
    if registry.actualTransactionActive {
      return None;
    }
    var closing := connection.Close();
    if closing.Some? {
      return Some(CannotGetJdbcConnection(None));
    }
    registry.UnbindResource(dataSource);
    e := None;
  }

  /** Two `getConnection` calls in a row hand back the same connection, and
      when the first succeeds only it may have acquired one; a failing
      acquisition fails again the same way and binds nothing. */
  method GetConnectionTwice(registry: TransactionSynchronizationManager, dataSource: DataSource)
    returns (first: Result<Connection>, second: Result<Connection>)
    requires registry.Valid()
    modifies registry, dataSource
    ensures first.Ok? ==> second == first
    ensures first.Ok? ==> |dataSource.trace| == |old(dataSource.trace)| + (if dataSource in old(registry.resources) then 0 else 1)
    ensures first.Err? ==> second == first && registry.resources == old(registry.resources)
  {
    first := GetConnection(registry, dataSource);
    second := GetConnection(registry, dataSource);
  }
}
