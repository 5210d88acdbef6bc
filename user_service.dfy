/** com.techcourse.service.UserService.changePassword: a manual transaction
    around the two DAO writes of a password change.

    The user's password is changed in memory first. Then the registry's
    connection is obtained (a failure there propagates before the try). In
    the try: auto-commit off, the user update, the history log, commit. An
    SQLException from any of these rolls the connection back (a throwing
    rollback replaces it) and leaves through SQLExceptionTranslator; any
    other exception skips the rollback. The connection is released in
    `finally`, and a failing release replaces what was pending.

    The two DAO writes are abstract: the user update is the caller task
    `UpdateUser` and the history log, which goes through its own template,
    is `LogHistory`, both journalled on `Dao`. Either may throw an
    SQLException or an unchecked exception. */
module UserServiceModel {
  import opened Jdbc
  import opened Lifecycle
  import DataSourceUtils

  /** The inner try block on connection c. */
  function WritesRun(faults: set<Call>, escapes: set<Task>, c: Res): Run<()>
  {
    var off := Event(c, SetAutoCommit(false), SetAutoCommit(false) !in faults);
    if SetAutoCommit(false) in faults then Run([off], Err(SqlException(SetAutoCommit(false))))
    else
      var updateFailed := TaskThrown(faults, escapes, UpdateUser);
      if updateFailed.Some? then Run([off, Event(Dao, Work(UpdateUser), false)], Err(updateFailed.value))
      else
        var logFailed := TaskThrown(faults, escapes, LogHistory);
        if logFailed.Some? then
          Run([off, Event(Dao, Work(UpdateUser), true), Event(Dao, Work(LogHistory), false)], Err(logFailed.value))
        else
          var commitFailed := Thrown(faults, Commit);
          Run([off, Event(Dao, Work(UpdateUser), true), Event(Dao, Work(LogHistory), true), Event(c, Commit, commitFailed.None?)],
              if commitFailed.Some? then Err(commitFailed.value) else Ok(()))
  }

  /** The two catch clauses: the inner one rolls back on an SQLException and
      rethrows it (or the rollback's own), the outer one translates what
      reaches it. Other exceptions pass both untouched. */
  function CatchRun(faults: set<Call>, c: Res, body: Result<()>): Run<()>
  {
    if body.Err? && body.error.SqlException? then
      var failed := Thrown(faults, Rollback);
      Run([Event(c, Rollback, failed.None?)], Err(Translated(if failed.Some? then failed.value else body.error)))
    else Run([], body)
  }

  /** The `finally` clause: `releaseConnection`, which does nothing while a
      transaction is active and otherwise closes the connection. */
  function ReleaseRun(faults: set<Call>, active: bool, c: Res, pending: Result<()>): Run<()>
  {
    if active then Run([], pending)
    else Run([CloseEvent(faults, c, ConnectionKind)],
             if Close(ConnectionKind) in faults then Err(CannotGetJdbcConnection(None)) else pending)
  }

  /** Everything after the connection c was obtained. */
  function TransactionRun(faults: set<Call>, escapes: set<Task>, active: bool, c: Res): Run<()>
  {
    var writes := WritesRun(faults, escapes, c);
    var caught := CatchRun(faults, c, writes.result);
    var released := ReleaseRun(faults, active, c, caught.result);
    Run(writes.trace + caught.trace + released.trace, released.result)
  }

  /** The DAO writes run only after auto-commit was switched off. */
  lemma AutoCommitOffBeforeWrites(faults: set<Call>, escapes: set<Task>, active: bool, c: Res)
    ensures var t := TransactionRun(faults, escapes, active, c).trace;
      0 < |t| && t[0].call == SetAutoCommit(false) &&
      forall j | 0 <= j < |t| :: t[j].call.Work? ==> 0 < j && t[0] == Event(c, SetAutoCommit(false), true)
  {
  }

  /** Commit is attempted only after both writes returned normally, in order. */
  lemma CommitOnlyAfterBothWrites(faults: set<Call>, escapes: set<Task>, active: bool, c: Res)
    ensures var t := TransactionRun(faults, escapes, active, c).trace;
      forall j | 0 <= j < |t| :: t[j].call == Commit ==>
        j == 3 && t[1] == Event(Dao, Work(UpdateUser), true) && t[2] == Event(Dao, Work(LogHistory), true)
  {
  }

  /** The try block ended with an SQLException. */
  predicate SqlFailure(faults: set<Call>, escapes: set<Task>)
  {
    var w := WritesRun(faults, escapes, Conn(0)).result;
    w.Err? && w.error.SqlException?
  }

  lemma WritesResultOnAnyConnection(faults: set<Call>, escapes: set<Task>, c: Res)
    ensures WritesRun(faults, escapes, c).result == WritesRun(faults, escapes, Conn(0)).result
  {
  }

  /** A rollback happens exactly on an SQLException, and the caller then
      sees a translated SQLException unless the release fails. An exception
      of another kind from a DAO write skips both commit and rollback and
      reaches the caller as it was, unless the release fails. */
  lemma RollbackOnSqlException(faults: set<Call>, escapes: set<Task>, active: bool, c: Res)
    ensures var t := TransactionRun(faults, escapes, active, c).trace;
      (exists j | 0 <= j < |t| :: t[j].call == Rollback) <==> SqlFailure(faults, escapes)
    ensures SqlFailure(faults, escapes) && (active || Close(ConnectionKind) !in faults) ==>
      var r := TransactionRun(faults, escapes, active, c).result;
      r.Err? && r.error.Translated? && r.error.cause.SqlException?
    ensures SetAutoCommit(false) !in faults && UpdateUser in escapes ==>
      (var t := TransactionRun(faults, escapes, active, c).trace;
       forall j | 0 <= j < |t| :: t[j].call != Commit && t[j].call != Rollback) &&
      (active || Close(ConnectionKind) !in faults ==> TransactionRun(faults, escapes, active, c).result == Err(Unchecked(UpdateUser)))
    ensures SetAutoCommit(false) !in faults && UpdateUser !in escapes && Work(UpdateUser) !in faults && LogHistory in escapes ==>
      (var t := TransactionRun(faults, escapes, active, c).trace;
       forall j | 0 <= j < |t| :: t[j].call != Commit && t[j].call != Rollback) &&
      (active || Close(ConnectionKind) !in faults ==> TransactionRun(faults, escapes, active, c).result == Err(Unchecked(LogHistory)))
  {
    WritesResultOnAnyConnection(faults, escapes, c);
    if SqlFailure(faults, escapes) {
      var w := WritesRun(faults, escapes, c);
      assert TransactionRun(faults, escapes, active, c).trace[|w.trace|].call == Rollback;
    }
  }

  /** The release runs on every path: unless a transaction is active, the
      one close of the connection is the last call, and a failing close
      replaces whatever was pending. While a transaction is active nothing
      is closed. */
  lemma ReleaseOnEveryPath(faults: set<Call>, escapes: set<Task>, active: bool, c: Res)
    ensures var t := TransactionRun(faults, escapes, active, c).trace;
      !active ==> (t[|t| - 1] == CloseEvent(faults, c, ConnectionKind) &&
                   forall j | 0 <= j < |t| :: t[j].call.Close? <==> j == |t| - 1)
    ensures var t := TransactionRun(faults, escapes, active, c).trace;
      active ==> forall j | 0 <= j < |t| :: !t[j].call.Close?
    ensures !active && Close(ConnectionKind) in faults ==>
      TransactionRun(faults, escapes, active, c).result == Err(CannotGetJdbcConnection(None))
  {
  }

  /** With no transaction active, a freshly acquired connection is closed,
      once, on every path. */
  lemma ChangePasswordLifecycle(faults: set<Call>, escapes: set<Task>, n: nat)
    ensures ProperlyClosed([Event(Conn(n), GetConnection, true)] + TransactionRun(faults, escapes, false, Conn(n)).trace)
    ensures var t := [Event(Conn(n), GetConnection, true)] + TransactionRun(faults, escapes, false, Conn(n)).trace;
      forall r: Res :: multiset(Closed(t))[r] == multiset(Opened(t))[r]
  {
    var c := Conn(n);
    var writes := WritesRun(faults, escapes, c);
    var middle := writes.trace + CatchRun(faults, c, writes.result).trace;
    assert Quiet(middle);
    OpenQuietClose(Event(c, GetConnection, true), middle, CloseEvent(faults, c, ConnectionKind));
    assert TransactionRun(faults, escapes, false, c).trace == middle + [CloseEvent(faults, c, ConnectionKind)];
    assert [Event(c, GetConnection, true)] + (middle + [CloseEvent(faults, c, ConnectionKind)])
        == [Event(c, GetConnection, true)] + middle + [CloseEvent(faults, c, ConnectionKind)];
    var t := [Event(c, GetConnection, true)] + TransactionRun(faults, escapes, false, c).trace;
    forall r: Res ensures multiset(Closed(t))[r] == multiset(Opened(t))[r] {
      ProperlyClosedOnce(t, r);
    }
  }

  /** The password change commits exactly when every call succeeds and the
      release does not fail. */
  lemma ChangePasswordOutcome(faults: set<Call>, escapes: set<Task>, active: bool, c: Res)
    ensures TransactionRun(faults, escapes, active, c).result.Ok? <==>
      SetAutoCommit(false) !in faults && UpdateUser !in escapes && Work(UpdateUser) !in faults &&
      LogHistory !in escapes && Work(LogHistory) !in faults && Commit !in faults &&
      (active || Close(ConnectionKind) !in faults)
  {
  }

  /** com.techcourse.domain.User, as far as the password change touches it. */
  class User {
    var password: string

    constructor (password: string)
      ensures this.password == password
    {
      this.password := password;
    }

    method ChangePassword(newPassword: string)
      modifies this
      ensures password == newPassword
    {
      password := newPassword;
    }
  }

  class UserService {
    const dataSource: DataSource
    const registry: DataSourceUtils.TransactionSynchronizationManager

    constructor (dataSource: DataSource, registry: DataSourceUtils.TransactionSynchronizationManager)
      ensures this.dataSource == dataSource && this.registry == registry
    {
      this.dataSource := dataSource;
      this.registry := registry;
    }

    /** `changePassword` for the user `findById` returned; `createBy` only
        fills the history row. */
    method ChangePassword(user: User, newPassword: string, createBy: string) returns (r: Result<()>)
      requires registry.Valid()
      modifies user, registry, dataSource, if dataSource in registry.resources then {registry.resources[dataSource]} else {}
      ensures user.password == newPassword
      ensures registry.Valid()
      ensures dataSource in old(registry.resources) ==>
        var run := TransactionRun(dataSource.faults, dataSource.escapes, old(registry.actualTransactionActive), Conn(old(registry.resources)[dataSource].id));
        dataSource.trace == old(dataSource.trace) + run.trace && r == run.result
      ensures dataSource !in old(registry.resources) && Call.GetConnection in dataSource.faults ==>
        dataSource.trace == old(dataSource.trace) + [Event(Conn(|old(dataSource.trace)|), Call.GetConnection, false)] &&
        r == Err(CannotGetJdbcConnection(Some(SqlException(Call.GetConnection)))) &&
        registry.resources == old(registry.resources)
      ensures dataSource !in old(registry.resources) && Call.GetConnection !in dataSource.faults ==>
        var run := TransactionRun(dataSource.faults, dataSource.escapes, old(registry.actualTransactionActive), Conn(|old(dataSource.trace)|));
        dataSource.trace == old(dataSource.trace) + [Event(Conn(|old(dataSource.trace)|), Call.GetConnection, true)] + run.trace &&
        r == run.result
      ensures registry.actualTransactionActive == old(registry.actualTransactionActive)
      ensures (!old(registry.actualTransactionActive) && Call.Close(ConnectionKind) !in dataSource.faults &&
               (dataSource in old(registry.resources) || Call.GetConnection !in dataSource.faults)) ==>
        registry.resources == old(registry.resources) - {dataSource}
      ensures ((old(registry.actualTransactionActive) || Call.Close(ConnectionKind) in dataSource.faults) &&
               dataSource in old(registry.resources)) ==>
        registry.resources == old(registry.resources)
      ensures ((old(registry.actualTransactionActive) || Call.Close(ConnectionKind) in dataSource.faults) &&
               dataSource !in old(registry.resources) && Call.GetConnection !in dataSource.faults) ==>
        dataSource in registry.resources && registry.resources[dataSource].id == |old(dataSource.trace)| &&
        registry.resources == old(registry.resources)[dataSource := registry.resources[dataSource]] &&
        registry.resources[dataSource].autoCommit == (Call.SetAutoCommit(false) in dataSource.faults) &&
        !registry.resources[dataSource].closed
      ensures dataSource in old(registry.resources) ==>
        var c := old(registry.resources)[dataSource];
        c.autoCommit == (if Call.SetAutoCommit(false) in dataSource.faults then old(c.autoCommit) else false) &&
        c.closed == (old(c.closed) || (!old(registry.actualTransactionActive) && Call.Close(ConnectionKind) !in dataSource.faults))
    {
      user.ChangePassword(newPassword);
      var obtained := DataSourceUtils.GetConnection(registry, dataSource);
      if obtained.Err? {
        return Err(obtained.error);
      }
      r := InTransaction(obtained.value);
    }

    /** The try-catch-finally on a connection of this service's data source. */
    method InTransaction(conn: Connection) returns (r: Result<()>)
      requires registry.Valid() && conn.ds == dataSource
      modifies registry, conn, dataSource
      ensures registry.Valid()
      ensures var run := TransactionRun(dataSource.faults, dataSource.escapes, old(registry.actualTransactionActive), Conn(conn.id));
        dataSource.trace == old(dataSource.trace) + run.trace && r == run.result
      ensures registry.actualTransactionActive == old(registry.actualTransactionActive)
      ensures !old(registry.actualTransactionActive) && Call.Close(ConnectionKind) !in dataSource.faults ==>
        registry.resources == old(registry.resources) - {dataSource}
      ensures old(registry.actualTransactionActive) || Call.Close(ConnectionKind) in dataSource.faults ==>
        registry.resources == old(registry.resources)
      ensures conn.autoCommit == (if Call.SetAutoCommit(false) in dataSource.faults then old(conn.autoCommit) else false)
      ensures conn.closed == (old(conn.closed) || (!old(registry.actualTransactionActive) && Call.Close(ConnectionKind) !in dataSource.faults))
    {
      var e := Writes(conn);
      var pending := e;
      if e.Some? && e.value.SqlException? {
        var failed := conn.Rollback();
        pending := Some(Translated(if failed.Some? then failed.value else e.value));
      }
      var released := DataSourceUtils.ReleaseConnection(registry, conn, dataSource);
      if released.Some? {
        pending := released;
      }
      r := if pending.Some? then Err(pending.value) else Ok(());
    }

    /** The inner try block: auto-commit off, the two writes, commit. */
    method Writes(conn: Connection) returns (e: Option<Exc>)
      requires conn.ds == dataSource
      modifies conn, dataSource
      ensures var run := WritesRun(dataSource.faults, dataSource.escapes, Conn(conn.id));
        dataSource.trace == old(dataSource.trace) + run.trace && e == ErrOf(run.result)
      ensures conn.autoCommit == (if Call.SetAutoCommit(false) in dataSource.faults then old(conn.autoCommit) else false)
      ensures conn.closed == old(conn.closed)
    {
      e := conn.SetAutoCommit(false);
      if e.None? {
        e := dataSource.RunTask(UpdateUser);
        if e.None? {
          e := dataSource.RunTask(LogHistory);
          if e.None? {
            e := conn.Commit();
          }
        }
      }
    }
  }
}
