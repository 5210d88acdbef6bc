/** An abstract model of the JDBC objects that the templates, the connection
    registry and the transaction code drive.

    Nothing here interprets SQL. A `DataSource` carries
      - a fault plan: the set of driver calls that throw `SQLException`
        (a call of exactly that shape throws every time it is made),
      - the rows that every `executeQuery` answers with,
      - the caller tasks that end in an unchecked exception,
      - and one journal, `trace`, of every driver call made through it, in
        order, with whether it succeeded.
    A connection, statement or result set is named by the position in the
    journal of the call that opened it, so two resources never share a name. */
module Jdbc {

  datatype Option<+T> = None | Some(value: T)

  /** What a failing operation throws, by kind. */
  datatype Exc =
    | SqlException(at: Call)                         // java.sql.SQLException from the driver (or the row mapper)
    | DataAccess(cause: Exc)                         // org.springframework.dao.DataAccessException(e)
    | EmptyResult                                    // nextstep DataAccessException: the list is empty
    | NotSingleResult(count: nat)                    // nextstep DataAccessException: `count` rows came back
    | Wrapped(cause: Exc)                            // new RuntimeException(e)
    | CannotGetJdbcConnection(reason: Option<Exc>)   // CannotGetJdbcConnectionException
    | TransactionFailed                              // nextstep TransactionException
    | Translated(cause: Exc)                         // what SQLExceptionTranslator.translate returns
    | Unchecked(task: Task)                          // a runtime exception thrown by caller code
    | NullPointer                                    // java.lang.NullPointerException

  datatype Result<+T> = Ok(value: T) | Err(error: Exc)

  /** What one template call leaves in the journal, and what it returns or throws. */
  datatype Run<+T> = Run(trace: seq<Event>, result: Result<T>)

  function ErrOf<T>(r: Result<T>): (e: Option<Exc>)
    ensures e.None? <==> r.Ok?
    ensures r.Err? ==> e == Some(r.error)
  {
    if r.Err? then Some(r.error) else None
  }

  /** A statement parameter or a column value (a java.lang.Object). */
  datatype Value = Null | Text(text: string) | Number(number: int)

  /** One row of a result set. */
  datatype Row = Row(columns: seq<Value>)

  datatype Kind = ConnectionKind | StatementKind | ResultSetKind

  /** Caller code that runs while a connection is held: a transaction strategy,
      or one of the two DAO writes of the password change. */
  datatype Task = Strategy | UpdateUser | LogHistory

  /** The shape of a driver call; the fault plan is a set of these. */
  datatype Call =
    | GetConnection
    | PrepareStatement
    | SetObject(index: nat, value: Value)
    | ExecuteUpdate
    | ExecuteQuery
    | Next
    | MapRow
    | Close(kind: Kind)
    | SetAutoCommit(autoCommit: bool)
    | Commit
    | Rollback
    | Work(task: Task)

  /** The object a call is made on. `Dao` stands for code that reaches the
      database on its own, not through a connection it was handed. */
  datatype Res = Conn(id: nat) | Stmt(id: nat) | Rs(id: nat) | Dao

  datatype Event = Event(on: Res, call: Call, ok: bool)

  /** The SQLException a call throws under fault plan `faults`, if any. */
  function Thrown(faults: set<Call>, call: Call): (e: Option<Exc>)
    ensures e.None? <==> call !in faults
    ensures e.Some? ==> e.value == SqlException(call)
  {
    if call in faults then Some(SqlException(call)) else None
  }

  /** What a caller task throws: an unchecked exception if it escapes, else the
      SQLException of the fault plan, if any. */
  function TaskThrown(faults: set<Call>, escapes: set<Task>, task: Task): (e: Option<Exc>)
    ensures task in escapes ==> e == Some(Unchecked(task))
    ensures task !in escapes ==> e == Thrown(faults, Work(task))
  {
    if task in escapes then Some(Unchecked(task)) else Thrown(faults, Work(task))
  }

  /** The journal entry of a close attempt on `r`. */
  function CloseEvent(faults: set<Call>, r: Res, kind: Kind): Event
  {
    Event(r, Close(kind), Close(kind) !in faults)
  }

  /** An exception pending from the body of a try keeps priority over one
      thrown while closing; a later exception is then suppressed. */
  function Primary(pending: Option<Exc>, e: Option<Exc>): (r: Option<Exc>)
    ensures pending.Some? ==> r == pending
    ensures pending.None? ==> r == e
  {
    if pending.Some? then pending else e
  }

  class DataSource {
    const faults: set<Call>
    const rows: seq<Row>
    const escapes: set<Task>
    var trace: seq<Event>

    constructor (faults: set<Call>, rows: seq<Row>, escapes: set<Task>)
      ensures this.faults == faults && this.rows == rows && this.escapes == escapes
      ensures trace == []
    {
      this.faults := faults;
      this.rows := rows;
      this.escapes := escapes;
      trace := [];
    }

    /** javax.sql.DataSource.getConnection: a fresh connection in auto-commit mode. */
    method GetConnection() returns (r: Result<Connection>)
      modifies this
      ensures trace == old(trace) + [Event(Conn(|old(trace)|), Call.GetConnection, Call.GetConnection !in faults)]
      ensures r.Err? <==> Call.GetConnection in faults
      ensures r.Err? ==> r.error == SqlException(Call.GetConnection)
      ensures r.Ok? ==> fresh(r.value) && r.value.ds == this && r.value.id == |old(trace)|
      ensures r.Ok? ==> r.value.autoCommit && !r.value.closed
    {
      var id := |trace|;
      var ok := Call.GetConnection !in faults;
      trace := trace + [Event(Conn(id), Call.GetConnection, ok)];
      if ok {
        var c := new Connection(this, id);
        r := Ok(c);
      } else {
        r := Err(SqlException(Call.GetConnection));
      }
    }

    /** Caller code that reaches the database by itself (a DAO call). */
    method RunTask(task: Task) returns (e: Option<Exc>)
      modifies this
      ensures e == TaskThrown(faults, escapes, task)
      ensures trace == old(trace) + [Event(Dao, Call.Work(task), e.None?)]
    {
      e := TaskThrown(faults, escapes, task);
      trace := trace + [Event(Dao, Call.Work(task), e.None?)];
    }
  }

  class Connection {
    const ds: DataSource
    const id: nat
    var autoCommit: bool
    var closed: bool

    constructor (ds: DataSource, id: nat)
      ensures this.ds == ds && this.id == id && autoCommit && !closed
    {
      this.ds := ds;
      this.id := id;
      autoCommit := true;
      closed := false;
    }

    method PrepareStatement(sql: string) returns (r: Result<PreparedStatement>)
      modifies ds
      ensures ds.trace == old(ds.trace) + [Event(Stmt(|old(ds.trace)|), Call.PrepareStatement, Call.PrepareStatement !in ds.faults)]
      ensures r.Err? <==> Call.PrepareStatement in ds.faults
      ensures r.Err? ==> r.error == SqlException(Call.PrepareStatement)
      ensures r.Ok? ==> fresh(r.value) && r.value.ds == ds && r.value.id == |old(ds.trace)| && r.value.sql == sql
      ensures r.Ok? ==> r.value.params == map[] && !r.value.closed
    {
      var sid := |ds.trace|;
      var ok := Call.PrepareStatement !in ds.faults;
      ds.trace := ds.trace + [Event(Stmt(sid), Call.PrepareStatement, ok)];
      if ok {
        var p := new PreparedStatement(ds, sid, sql);
        r := Ok(p);
      } else {
        r := Err(SqlException(Call.PrepareStatement));
      }
    }

    method SetAutoCommit(flag: bool) returns (e: Option<Exc>)
      modifies this, ds
      ensures e == Thrown(ds.faults, Call.SetAutoCommit(flag))
      ensures ds.trace == old(ds.trace) + [Event(Conn(id), Call.SetAutoCommit(flag), e.None?)]
      ensures autoCommit == (if e.None? then flag else old(autoCommit))
      ensures closed == old(closed)
    {
      e := Thrown(ds.faults, Call.SetAutoCommit(flag));
      ds.trace := ds.trace + [Event(Conn(id), Call.SetAutoCommit(flag), e.None?)];
      if e.None? {
        autoCommit := flag;
      }
    }

    method Commit() returns (e: Option<Exc>)
      modifies ds
      ensures e == Thrown(ds.faults, Call.Commit)
      ensures ds.trace == old(ds.trace) + [Event(Conn(id), Call.Commit, e.None?)]
    {
      e := Thrown(ds.faults, Call.Commit);
      ds.trace := ds.trace + [Event(Conn(id), Call.Commit, e.None?)];
    }

    method Rollback() returns (e: Option<Exc>)
      modifies ds
      ensures e == Thrown(ds.faults, Call.Rollback)
      ensures ds.trace == old(ds.trace) + [Event(Conn(id), Call.Rollback, e.None?)]
    {
      e := Thrown(ds.faults, Call.Rollback);
      ds.trace := ds.trace + [Event(Conn(id), Call.Rollback, e.None?)];
    }

    /** Caller code that is handed this connection (a transaction strategy). */
    method Run(task: Task) returns (e: Option<Exc>)
      modifies ds
      ensures e == TaskThrown(ds.faults, ds.escapes, task)
      ensures ds.trace == old(ds.trace) + [Event(Conn(id), Call.Work(task), e.None?)]
    {
      e := TaskThrown(ds.faults, ds.escapes, task);
      ds.trace := ds.trace + [Event(Conn(id), Call.Work(task), e.None?)];
    }

    /** A close that throws leaves the connection open. */
    method Close() returns (e: Option<Exc>)
      modifies this, ds
      ensures e == Thrown(ds.faults, Call.Close(ConnectionKind))
      ensures ds.trace == old(ds.trace) + [CloseEvent(ds.faults, Conn(id), ConnectionKind)]
      ensures closed == (old(closed) || e.None?)
      ensures autoCommit == old(autoCommit)
    {
      e := Thrown(ds.faults, Call.Close(ConnectionKind));
      ds.trace := ds.trace + [CloseEvent(ds.faults, Conn(id), ConnectionKind)];
      if e.None? {
        closed := true;
      }
    }
  }

  class PreparedStatement {
    const ds: DataSource
    const id: nat
    const sql: string
    /** The 1-based parameter map. */
    var params: map<nat, Value>
    var closed: bool

    constructor (ds: DataSource, id: nat, sql: string)
      ensures this.ds == ds && this.id == id && this.sql == sql
      ensures params == map[] && !closed
    {
      this.ds := ds;
      this.id := id;
      this.sql := sql;
      params := map[];
      closed := false;
    }

    method SetObject(index: nat, v: Value) returns (e: Option<Exc>)
      modifies this, ds
      ensures e == Thrown(ds.faults, Call.SetObject(index, v))
      ensures ds.trace == old(ds.trace) + [Event(Stmt(id), Call.SetObject(index, v), e.None?)]
      ensures params == (if e.None? then old(params)[index := v] else old(params))
      ensures closed == old(closed)
    {
      e := Thrown(ds.faults, Call.SetObject(index, v));
      ds.trace := ds.trace + [Event(Stmt(id), Call.SetObject(index, v), e.None?)];
      if e.None? {
        params := params[index := v];
      }
    }

    method ExecuteUpdate() returns (e: Option<Exc>)
      modifies ds
      ensures e == Thrown(ds.faults, Call.ExecuteUpdate)
      ensures ds.trace == old(ds.trace) + [Event(Stmt(id), Call.ExecuteUpdate, e.None?)]
    {
      e := Thrown(ds.faults, Call.ExecuteUpdate);
      ds.trace := ds.trace + [Event(Stmt(id), Call.ExecuteUpdate, e.None?)];
    }

    /** A fresh result set over the data source's rows, positioned before the first. */
    method ExecuteQuery() returns (r: Result<ResultSet>)
      modifies ds
      ensures ds.trace == old(ds.trace) + [Event(Rs(|old(ds.trace)|), Call.ExecuteQuery, Call.ExecuteQuery !in ds.faults)]
      ensures r.Err? <==> Call.ExecuteQuery in ds.faults
      ensures r.Err? ==> r.error == SqlException(Call.ExecuteQuery)
      ensures r.Ok? ==> fresh(r.value) && r.value.ds == ds && r.value.id == |old(ds.trace)|
      ensures r.Ok? ==> r.value.rows == ds.rows && r.value.cursor == 0 && !r.value.closed
    {
      var rid := |ds.trace|;
      var ok := Call.ExecuteQuery !in ds.faults;
      ds.trace := ds.trace + [Event(Rs(rid), Call.ExecuteQuery, ok)];
      if ok {
        var rs := new ResultSet(ds, rid);
        r := Ok(rs);
      } else {
        r := Err(SqlException(Call.ExecuteQuery));
      }
    }

    method Close() returns (e: Option<Exc>)
      modifies this, ds
      ensures e == Thrown(ds.faults, Call.Close(StatementKind))
      ensures ds.trace == old(ds.trace) + [CloseEvent(ds.faults, Stmt(id), StatementKind)]
      ensures closed == (old(closed) || e.None?)
      ensures params == old(params)
    {
      e := Thrown(ds.faults, Call.Close(StatementKind));
      ds.trace := ds.trace + [CloseEvent(ds.faults, Stmt(id), StatementKind)];
      if e.None? {
        closed := true;
      }
    }
  }

  class ResultSet {
    const ds: DataSource
    const id: nat
    const rows: seq<Row>
    /** How many rows `next` has moved onto; the current row is rows[cursor - 1]. */
    var cursor: nat
    var closed: bool

    constructor (ds: DataSource, id: nat)
      ensures this.ds == ds && this.id == id && rows == ds.rows
      ensures cursor == 0 && !closed
    {
      this.ds := ds;
      this.id := id;
      rows := ds.rows;
      cursor := 0;
      closed := false;
    }

    /** Moves onto the next row, answering whether there was one. */
    method Next() returns (r: Result<bool>)
      requires cursor <= |rows|
      modifies this, ds
      ensures ds.trace == old(ds.trace) + [Event(Rs(id), Call.Next, Call.Next !in ds.faults)]
      ensures r.Err? <==> Call.Next in ds.faults
      ensures r.Err? ==> r.error == SqlException(Call.Next) && cursor == old(cursor)
      ensures r.Ok? ==> r.value == (old(cursor) < |rows|)
      ensures r.Ok? ==> cursor == (if old(cursor) < |rows| then old(cursor) + 1 else old(cursor))
      ensures closed == old(closed)
    {
      var ok := Call.Next !in ds.faults;
      ds.trace := ds.trace + [Event(Rs(id), Call.Next, ok)];
      if !ok {
        r := Err(SqlException(Call.Next));
      } else if cursor < |rows| {
        cursor := cursor + 1;
        r := Ok(true);
      } else {
        r := Ok(false);
      }
    }

    method Close() returns (e: Option<Exc>)
      modifies this, ds
      ensures e == Thrown(ds.faults, Call.Close(ResultSetKind))
      ensures ds.trace == old(ds.trace) + [CloseEvent(ds.faults, Rs(id), ResultSetKind)]
      ensures closed == (old(closed) || e.None?)
      ensures cursor == old(cursor)
    {
      e := Thrown(ds.faults, Call.Close(ResultSetKind));
      ds.trace := ds.trace + [CloseEvent(ds.faults, Rs(id), ResultSetKind)];
      if e.None? {
        closed := true;
      }
    }
  }
}
