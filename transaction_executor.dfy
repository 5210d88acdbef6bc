/** org.springframework.transaction.support.TransactionExecutor: a manual
    transaction around one strategy.

    `execute` obtains a connection, turns auto-commit off, runs the strategy
    on that connection and commits; an SQLException from any of these rolls
    the connection back and is rethrown wrapped in a RuntimeException, while
    any other exception passes through without a rollback. The connection is
    closed in `finally`, and a failing close replaces whatever was pending.
    Each of the helpers `getConnection`, `rollback` and `close` rethrows its
    SQLException wrapped. The strategy is the caller task `Strategy`. */
module TransactionExecutorModel {
  import opened Jdbc
  import opened Lifecycle

  /** The try block on connection c: auto-commit off, the strategy, commit. */
  function WorkRun(faults: set<Call>, escapes: set<Task>, c: Res): Run<()>
  {
    var off := Event(c, SetAutoCommit(false), SetAutoCommit(false) !in faults);
    if SetAutoCommit(false) in faults then Run([off], Err(SqlException(SetAutoCommit(false))))
    else
      var failed := TaskThrown(faults, escapes, Strategy);
      if failed.Some? then Run([off, Event(c, Work(Strategy), false)], Err(failed.value))
      else
        var committed := Thrown(faults, Commit);
        Run([off, Event(c, Work(Strategy), true), Event(c, Commit, committed.None?)],
            if committed.Some? then Err(committed.value) else Ok(()))
  }

  /** The catch clause: only an SQLException is caught; it rolls back and is
      rethrown wrapped, unless the rollback throws, whose wrapped exception
      is thrown instead. */
  function CatchRun(faults: set<Call>, c: Res, body: Result<()>): Run<()>
  {
    if body.Err? && body.error.SqlException? then
      var failed := Thrown(faults, Rollback);
      Run([Event(c, Rollback, failed.None?)], Err(Wrapped(if failed.Some? then failed.value else body.error)))
    else Run([], body)
  }

  /** The run of `execute`, started when the journal held n entries. */
  function ExecuteRun(faults: set<Call>, escapes: set<Task>, n: nat): Run<()>
  {
    var c := Conn(n);
    if GetConnection in faults then Run([Event(c, GetConnection, false)], Err(Wrapped(SqlException(GetConnection))))
    else
      var work := WorkRun(faults, escapes, c);
      var caught := CatchRun(faults, c, work.result);
      var closeFailed := Thrown(faults, Close(ConnectionKind));
      Run([Event(c, GetConnection, true)] + work.trace + caught.trace + [CloseEvent(faults, c, ConnectionKind)],
          if closeFailed.Some? then Err(Wrapped(closeFailed.value)) else caught.result)
  }

  /** The strategy failed with an SQLException, or auto-commit or commit did. */
  predicate SqlFailure(faults: set<Call>, escapes: set<Task>)
  {
    var w := WorkRun(faults, escapes, Conn(0)).result;
    w.Err? && w.error.SqlException?
  }

  lemma WorkRunResultOnAnyConnection(faults: set<Call>, escapes: set<Task>, c: Res)
    ensures WorkRun(faults, escapes, c).result == WorkRun(faults, escapes, Conn(0)).result
  {
  }

  /** Every call `execute` makes after obtaining the connection is on that
      connection: the strategy, the commit or rollback and the close all see
      the very connection that was obtained. */
  lemma OneConnection(faults: set<Call>, escapes: set<Task>, n: nat)
    ensures forall j | 0 <= j < |ExecuteRun(faults, escapes, n).trace| :: ExecuteRun(faults, escapes, n).trace[j].on == Conn(n)
  {
  }

  /** Auto-commit is switched off, successfully, right before the strategy
      runs; the strategy runs at most once. */
  lemma AutoCommitOffFirst(faults: set<Call>, escapes: set<Task>, n: nat)
    ensures forall j | 0 <= j < |ExecuteRun(faults, escapes, n).trace| ::
      ExecuteRun(faults, escapes, n).trace[j].call == Work(Strategy) ==>
        j == 2 && ExecuteRun(faults, escapes, n).trace[1] == Event(Conn(n), SetAutoCommit(false), true)
  {
  }

  /** Commit is attempted only after the strategy returned normally. */
  lemma CommitOnlyAfterStrategy(faults: set<Call>, escapes: set<Task>, n: nat)
    ensures forall j | 0 <= j < |ExecuteRun(faults, escapes, n).trace| ::
      ExecuteRun(faults, escapes, n).trace[j].call == Commit ==>
        j == 3 && ExecuteRun(faults, escapes, n).trace[2] == Event(Conn(n), Work(Strategy), true) &&
        ExecuteRun(faults, escapes, n).trace[1] == Event(Conn(n), SetAutoCommit(false), true)
  {
  }

  /** A rollback happens exactly when an SQLException ended the try block,
      and then `execute` fails with a wrapped SQLException. An exception of
      another kind from the strategy neither commits nor rolls back, and is
      what `execute` throws unless the close fails. */
  lemma RollbackOnSqlException(faults: set<Call>, escapes: set<Task>, n: nat)
    ensures (exists j | 0 <= j < |ExecuteRun(faults, escapes, n).trace| :: ExecuteRun(faults, escapes, n).trace[j].call == Rollback)
      <==> GetConnection !in faults && SqlFailure(faults, escapes)
    ensures GetConnection !in faults && SqlFailure(faults, escapes) ==>
      ExecuteRun(faults, escapes, n).result.Err? &&
      ExecuteRun(faults, escapes, n).result.error.Wrapped? &&
      ExecuteRun(faults, escapes, n).result.error.cause.SqlException?
    ensures GetConnection !in faults && SetAutoCommit(false) !in faults && Strategy in escapes ==>
      (forall j | 0 <= j < |ExecuteRun(faults, escapes, n).trace| ::
        ExecuteRun(faults, escapes, n).trace[j].call != Commit && ExecuteRun(faults, escapes, n).trace[j].call != Rollback) &&
      (Close(ConnectionKind) !in faults ==> ExecuteRun(faults, escapes, n).result == Err(Unchecked(Strategy)))
  {
    WorkRunResultOnAnyConnection(faults, escapes, Conn(n));
    var t := ExecuteRun(faults, escapes, n).trace;
    if GetConnection !in faults && SqlFailure(faults, escapes) {
      var w := WorkRun(faults, escapes, Conn(n));
      assert t[1 + |w.trace|].call == Rollback;
    }
  }

  /** Commit and rollback never both take effect: a rollback follows only a
      commit that threw. */
  lemma NeverCommitAndRollback(faults: set<Call>, escapes: set<Task>, n: nat)
    ensures !((exists i | 0 <= i < |ExecuteRun(faults, escapes, n).trace| :: ExecuteRun(faults, escapes, n).trace[i] == Event(Conn(n), Commit, true)) &&
              (exists j | 0 <= j < |ExecuteRun(faults, escapes, n).trace| :: ExecuteRun(faults, escapes, n).trace[j].call == Rollback))
  {
  }

  /** Nothing between obtaining and closing the connection opens or closes
      a resource. */
  lemma MiddleQuiet(faults: set<Call>, escapes: set<Task>, c: Res)
    ensures Quiet(WorkRun(faults, escapes, c).trace + CatchRun(faults, c, WorkRun(faults, escapes, c).result).trace)
  {
  }

  /** The connection, once obtained, is closed exactly once, as the last
      call. */
  lemma ClosedOnceLast(faults: set<Call>, escapes: set<Task>, n: nat)
    requires GetConnection !in faults
    ensures var t := ExecuteRun(faults, escapes, n).trace;
      t[|t| - 1] == CloseEvent(faults, Conn(n), ConnectionKind) &&
      forall j | 0 <= j < |t| :: t[j].call == Close(ConnectionKind) <==> j == |t| - 1
  {
  }

  /** `execute` closes everything it opens, whichever call fails. */
  lemma ExecuteLifecycle(faults: set<Call>, escapes: set<Task>, n: nat)
    ensures ProperlyClosed(ExecuteRun(faults, escapes, n).trace)
    ensures var t := ExecuteRun(faults, escapes, n).trace;
      forall r: Res :: multiset(Closed(t))[r] == multiset(Opened(t))[r]
  {
    var c := Conn(n);
    if GetConnection in faults {
      ReverseOne(c);
      One(Event(c, GetConnection, false));
      assert Reverse<Res>([]) == [];
    } else {
      var work := WorkRun(faults, escapes, c);
      var middle := work.trace + CatchRun(faults, c, work.result).trace;
      var got := Event(c, GetConnection, true);
      MiddleQuiet(faults, escapes, c);
      OpenQuietClose(got, middle, CloseEvent(faults, c, ConnectionKind));
      assert ExecuteRun(faults, escapes, n).trace == [got] + middle + [CloseEvent(faults, c, ConnectionKind)];
    }
    var t := ExecuteRun(faults, escapes, n).trace;
    forall r: Res ensures multiset(Closed(t))[r] == multiset(Opened(t))[r] {
      ProperlyClosedOnce(t, r);
    }
  }

  /** `execute` succeeds exactly when obtaining the connection, switching
      auto-commit off, the strategy, the commit and the close all succeed. */
  lemma ExecuteOutcome(faults: set<Call>, escapes: set<Task>, n: nat)
    ensures ExecuteRun(faults, escapes, n).result.Ok? <==>
      GetConnection !in faults && SetAutoCommit(false) !in faults &&
      Strategy !in escapes && Work(Strategy) !in faults && Commit !in faults && Close(ConnectionKind) !in faults
  {
  }

  class TransactionExecutor {
    const dataSource: DataSource

    constructor (dataSource: DataSource)
      ensures this.dataSource == dataSource
    {
      this.dataSource := dataSource;
    }

    method Execute() returns (r: Result<()>)
      modifies dataSource
      ensures dataSource.trace == old(dataSource.trace) + ExecuteRun(dataSource.faults, dataSource.escapes, |old(dataSource.trace)|).trace
      ensures r == ExecuteRun(dataSource.faults, dataSource.escapes, |old(dataSource.trace)|).result
    {
      var obtained := GetConnection();
      if obtained.Err? {
        return Err(obtained.error);
      }
      var connection := obtained.value;
      var e := Work(connection);
      var pending := e;
      if e.Some? && e.value.SqlException? {
        var failed := Rollback(connection);
        pending := Some(if failed.Some? then failed.value else Wrapped(e.value));
      }
      var closing := Close(connection);
      if closing.Some? {
        pending := closing;
      }
      r := if pending.Some? then Err(pending.value) else Ok(());
    }

    /** The try block: auto-commit off, the strategy, commit. */
    method Work(connection: Connection) returns (e: Option<Exc>)
      requires connection.ds == dataSource
      modifies connection, dataSource
      ensures var run := WorkRun(dataSource.faults, dataSource.escapes, Conn(connection.id));
        dataSource.trace == old(dataSource.trace) + run.trace && e == ErrOf(run.result)
      ensures connection.autoCommit == (if Call.SetAutoCommit(false) in dataSource.faults then old(connection.autoCommit) else false)
      ensures connection.closed == old(connection.closed)
    {
      e := connection.SetAutoCommit(false);
      if e.None? {
        e := connection.Run(Strategy);
        if e.None? {
          e := connection.Commit();
        }
      }
    }

    method GetConnection() returns (r: Result<Connection>)
      modifies dataSource
      ensures dataSource.trace == old(dataSource.trace) + [Event(Conn(|old(dataSource.trace)|), Call.GetConnection, Call.GetConnection !in dataSource.faults)]
      ensures r.Err? <==> Call.GetConnection in dataSource.faults
      ensures r.Err? ==> r.error == Wrapped(SqlException(Call.GetConnection))
      ensures r.Ok? ==> fresh(r.value) && r.value.ds == dataSource && r.value.id == |old(dataSource.trace)|
      ensures r.Ok? ==> r.value.autoCommit && !r.value.closed
    {
      r := dataSource.GetConnection();
      if r.Err? {
        r := Err(Wrapped(r.error));
      }
    }

    method Rollback(connection: Connection) returns (e: Option<Exc>)
      modifies connection.ds
      ensures connection.ds.trace == old(connection.ds.trace) + [Event(Conn(connection.id), Call.Rollback, Call.Rollback !in connection.ds.faults)]
      ensures e.None? <==> Call.Rollback !in connection.ds.faults
      ensures e.Some? ==> e.value == Wrapped(SqlException(Call.Rollback))
    {
      e := connection.Rollback();
      if e.Some? {
        e := Some(Wrapped(e.value));
      }
    }

    method Close(connection: Connection) returns (e: Option<Exc>)
      modifies connection, connection.ds
      ensures connection.ds.trace == old(connection.ds.trace) + [CloseEvent(connection.ds.faults, Conn(connection.id), ConnectionKind)]
      ensures e.None? <==> Call.Close(ConnectionKind) !in connection.ds.faults
      ensures e.Some? ==> e.value == Wrapped(SqlException(Call.Close(ConnectionKind)))
      ensures connection.closed == (old(connection.closed) || e.None?)
    {
      e := connection.Close();
      if e.Some? {
        e := Some(Wrapped(e.value));
      }
    }
  }
}
