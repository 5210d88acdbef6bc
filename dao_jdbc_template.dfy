/** The template of package com.techcourse.dao.

    The connection, the statement and (for the queries) the bound statement's
    result set are all obtained BEFORE the try-with-resources statement that
    closes them, so a failure on the way there leaves whatever was already
    open unclosed. Nothing is translated: an SQLException leaves each
    operation as itself. The queries look at the first row only, with `if`
    rather than `while`. The statement setter is modelled as positional
    binding of a list of values. */
module DaoJdbcTemplate {
  import opened Jdbc
  import opened Lifecycle
  import opened Binding
  import opened Rows

  /** The part all three operations share: get the connection, then prepare. */
  function AcquireRun(faults: set<Call>, n: nat): seq<Event>
  {
    if GetConnection in faults then [Event(Conn(n), GetConnection, false)]
    else [Event(Conn(n), GetConnection, true), Event(Stmt(n + 1), PrepareStatement, !(PrepareStatement in faults))]
  }

  /** The try block of `update` on the statement s: bind, then execute. */
  function UpdateBodyRun(faults: set<Call>, s: Res, values: seq<Value>): Run<()>
  {
    var binds := BindTrace(s, values, faults);
    var bindError := BindError(values, faults);
    if bindError.Some? then Run(binds, Err(bindError.value))
    else
      var e := Thrown(faults, ExecuteUpdate);
      Run(binds + [Event(s, ExecuteUpdate, e.None?)], if e.Some? then Err(e.value) else Ok(()))
  }

  /** The run of `update`, started when the journal held n entries. */
  function UpdateRun(faults: set<Call>, n: nat, values: seq<Value>): Run<()>
  {
    var c := Conn(n);
    var s := Stmt(n + 1);
    if GetConnection in faults then Run(AcquireRun(faults, n), Err(SqlException(GetConnection)))
    else if PrepareStatement in faults then Run(AcquireRun(faults, n), Err(SqlException(PrepareStatement)))
    else
      var body := UpdateBodyRun(faults, s, values);
      var pending := Primary(Primary(ErrOf(body.result), Thrown(faults, Close(StatementKind))), Thrown(faults, Close(ConnectionKind)));
      Run(AcquireRun(faults, n) + body.trace + [CloseEvent(faults, s, StatementKind), CloseEvent(faults, c, ConnectionKind)],
          if pending.Some? then Err(pending.value) else Ok(()))
  }

  /** The name of the result set a query opens. */
  function DaoRsId(faults: set<Call>, n: nat, values: seq<Value>): nat
  {
    n + 2 + |BindTrace(Stmt(n + 1), values, faults)|
  }

  /** Everything a query does before its try statement: the connection,
      the statement, the bindings and executeQuery. A failure among them
      closes nothing. */
  function SelectOpenRun(faults: set<Call>, n: nat, values: seq<Value>): Run<()>
  {
    var r := Rs(DaoRsId(faults, n, values));
    if GetConnection in faults then Run(AcquireRun(faults, n), Err(SqlException(GetConnection)))
    else if PrepareStatement in faults then Run(AcquireRun(faults, n), Err(SqlException(PrepareStatement)))
    else
      var binds := BindTrace(Stmt(n + 1), values, faults);
      var bindError := BindError(values, faults);
      if bindError.Some? then Run(AcquireRun(faults, n) + binds, Err(bindError.value))
      else
        Run(AcquireRun(faults, n) + binds + [Event(r, ExecuteQuery, ExecuteQuery !in faults)],
            if ExecuteQuery in faults then Err(SqlException(ExecuteQuery)) else Ok(()))
  }

  /** The run of a query whose block is `body`. */
  function SelectRun<U>(faults: set<Call>, n: nat, values: seq<Value>, body: Run<U>): Run<U>
  {
    var head := SelectOpenRun(faults, n, values);
    if head.result.Err? then Run(head.trace, Err(head.result.error))
    else
      var closing := CloseAllRun(faults, Rs(DaoRsId(faults, n, values)), Stmt(n + 1), Conn(n), body.result);
      Run(head.trace + body.trace + closing.trace, closing.result)
  }

  /** Leaving the try statement: the result set, the statement and the
      connection are closed in that order, the reverse of the order in which
      they are listed as resources. */
  function CloseAllRun<U>(faults: set<Call>, r: Res, s: Res, c: Res, body: Result<U>): Run<U>
  {
    var pending := Primary(Primary(Primary(ErrOf(body), Thrown(faults, Close(ResultSetKind))),
                                   Thrown(faults, Close(StatementKind))),
                           Thrown(faults, Close(ConnectionKind)));
    Run([CloseEvent(faults, r, ResultSetKind), CloseEvent(faults, s, StatementKind), CloseEvent(faults, c, ConnectionKind)],
        if pending.Some? then Err(pending.value) else body)
  }

  /** The block of `query`: `if (rs.next()) results.add(rowMapper.mapRow(rs))`. */
  function FirstAsListRun<T>(r: Res, rows: seq<Row>, mapper: Row -> Option<T>, faults: set<Call>): Run<seq<T>>
  {
    var first := FirstRowRun(r, rows, mapper, faults);
    Run(first.trace,
        if first.result.Err? then Err(first.result.error)
        else if first.result.value.Some? then Ok([first.result.value.value]) else Ok([]))
  }

  function QueryForObjectRun<T>(faults: set<Call>, n: nat, values: seq<Value>, rows: seq<Row>, mapper: Row -> Option<T>): Run<Option<T>>
  {
    SelectRun(faults, n, values, FirstRowRun(Rs(DaoRsId(faults, n, values)), rows, mapper, faults))
  }

  function QueryRun<T>(faults: set<Call>, n: nat, values: seq<Value>, rows: seq<Row>, mapper: Row -> Option<T>): Run<seq<T>>
  {
    SelectRun(faults, n, values, FirstAsListRun(Rs(DaoRsId(faults, n, values)), rows, mapper, faults))
  }

  /** What `update` opens and closes: a failing prepareStatement leaves the
      connection open; once the statement exists, both are closed, the
      statement first. */
  lemma UpdateResources(faults: set<Call>, n: nat, values: seq<Value>)
    ensures GetConnection in faults ==>
      Opened(UpdateRun(faults, n, values).trace) == [] && Closed(UpdateRun(faults, n, values).trace) == []
    ensures GetConnection !in faults && PrepareStatement in faults ==>
      Opened(UpdateRun(faults, n, values).trace) == [Conn(n)] && Closed(UpdateRun(faults, n, values).trace) == []
    ensures GetConnection !in faults && PrepareStatement !in faults ==>
      Opened(UpdateRun(faults, n, values).trace) == [Conn(n), Stmt(n + 1)] &&
      Closed(UpdateRun(faults, n, values).trace) == [Stmt(n + 1), Conn(n)]
  {
    var got := Event(Conn(n), GetConnection, true);
    var s := Stmt(n + 1);
    if GetConnection in faults {
      One(Event(Conn(n), GetConnection, false));
    } else {
      var prep := Event(s, PrepareStatement, PrepareStatement !in faults);
      One(got);
      One(prep);
      Append([got], [prep]);
      assert AcquireRun(faults, n) == [got] + [prep];
      if PrepareStatement !in faults {
        var binds := BindTrace(s, values, faults);
        BindTraceQuiet(s, values, faults);
        var tail := [CloseEvent(faults, s, StatementKind), CloseEvent(faults, Conn(n), ConnectionKind)];
        if BindError(values, faults).Some? {
          CloseTailShape(AcquireRun(faults, n), binds, tail);
        } else {
          var exec := Event(s, ExecuteUpdate, ExecuteUpdate !in faults);
          assert Quiet([exec]);
          QuietAppend(binds, [exec]);
          CloseTailShape(AcquireRun(faults, n), binds + [exec], tail);
        }
      }
    }
  }

  /** `update` closes properly except when prepareStatement throws. */
  lemma UpdateLifecycle(faults: set<Call>, n: nat, values: seq<Value>)
    ensures ProperlyClosed(UpdateRun(faults, n, values).trace) <==> !(GetConnection !in faults && PrepareStatement in faults)
  {
    UpdateResources(faults, n, values);
    ReverseOne(Conn(n));
    ReverseTwo(Conn(n), Stmt(n + 1));
  }

  /** A query reaches its try statement when everything before it succeeds. */
  predicate TryReached(faults: set<Call>, values: seq<Value>)
  {
    GetConnection !in faults && PrepareStatement !in faults && BindError(values, faults).None? && ExecuteQuery !in faults
  }

  /** What a query opens and closes: nothing is closed unless the try
      statement is reached, and then all three resources are closed, last
      opened first. */
  lemma SelectResources<U>(faults: set<Call>, n: nat, values: seq<Value>, body: Run<U>)
    requires Quiet(body.trace)
    ensures !TryReached(faults, values) ==> Closed(SelectRun(faults, n, values, body).trace) == []
    ensures !TryReached(faults, values) ==>
      Opened(SelectRun(faults, n, values, body).trace) ==
        (if GetConnection in faults then [] else if PrepareStatement in faults then [Conn(n)] else [Conn(n), Stmt(n + 1)])
    ensures TryReached(faults, values) ==>
      Opened(SelectRun(faults, n, values, body).trace) == [Conn(n), Stmt(n + 1), Rs(DaoRsId(faults, n, values))] &&
      Closed(SelectRun(faults, n, values, body).trace) == [Rs(DaoRsId(faults, n, values)), Stmt(n + 1), Conn(n)]
  {
    var got := Event(Conn(n), GetConnection, true);
    var s := Stmt(n + 1);
    var r := Rs(DaoRsId(faults, n, values));
    if GetConnection in faults {
      One(Event(Conn(n), GetConnection, false));
    } else {
      var prep := Event(s, PrepareStatement, PrepareStatement !in faults);
      One(got);
      One(prep);
      Append([got], [prep]);
      assert AcquireRun(faults, n) == [got] + [prep];
      if PrepareStatement !in faults {
        var binds := BindTrace(s, values, faults);
        BindTraceQuiet(s, values, faults);
        QuietInert(binds);
        Append(AcquireRun(faults, n), binds);
        if BindError(values, faults).None? {
          var exec := Event(r, ExecuteQuery, ExecuteQuery !in faults);
          One(exec);
          Append(AcquireRun(faults, n) + binds, [exec]);
          if ExecuteQuery !in faults {
            var closing := CloseAllRun(faults, r, s, Conn(n), body.result).trace;
            ThreeCloses(AcquireRun(faults, n) + binds + [exec], body.trace, closing);
          }
        }
      }
    }
  }

  /** A query closes properly exactly when it fails before any resource is
      opened or reaches its try statement. */
  lemma SelectLifecycle<U>(faults: set<Call>, n: nat, values: seq<Value>, body: Run<U>)
    requires Quiet(body.trace)
    ensures ProperlyClosed(SelectRun(faults, n, values, body).trace) <==> GetConnection in faults || TryReached(faults, values)
  {
    SelectResources(faults, n, values, body);
    ReverseThree(Conn(n), Stmt(n + 1), Rs(DaoRsId(faults, n, values)));
    ReverseOne(Conn(n));
    ReverseTwo(Conn(n), Stmt(n + 1));
  }

  /** `update` fails only with an SQLException, and exactly when one of its
      driver calls throws. */
  lemma UpdateUntranslated(faults: set<Call>, n: nat, values: seq<Value>)
    ensures UpdateRun(faults, n, values).result.Err? ==> UpdateRun(faults, n, values).result.error.SqlException?
    ensures UpdateRun(faults, n, values).result.Ok? <==>
      GetConnection !in faults && PrepareStatement !in faults &&
      (forall i | 0 <= i < |values| :: Bind(values, i) !in faults) &&
      ExecuteUpdate !in faults && Close(StatementKind) !in faults && Close(ConnectionKind) !in faults
  {
    BindTraceShape(Stmt(n + 1), values, faults);
  }

  /** `queryForObject` yields the mapped first row, or null for no rows, and
      fails only with an SQLException. */
  lemma QueryForObjectFirstRow<T>(faults: set<Call>, n: nat, values: seq<Value>, rows: seq<Row>, mapper: Row -> Option<T>)
    ensures QueryForObjectRun(faults, n, values, rows, mapper).result.Ok? ==>
      QueryForObjectRun(faults, n, values, rows, mapper).result.value == (if rows == [] then None else mapper(rows[0]))
    ensures QueryForObjectRun(faults, n, values, rows, mapper).result.Err? ==>
      QueryForObjectRun(faults, n, values, rows, mapper).result.error.SqlException?
    ensures QueryForObjectRun(faults, n, values, rows, mapper).result.Ok? <==>
      TryReached(faults, values) && Next !in faults && (rows == [] || mapper(rows[0]).Some?) &&
      Close(ResultSetKind) !in faults && Close(StatementKind) !in faults && Close(ConnectionKind) !in faults
  {
    BindTraceShape(Stmt(n + 1), values, faults);
  }

  /** `query` returns at most one element, the mapped first row, and fails
      only with an SQLException. */
  lemma QueryAtMostOne<T>(faults: set<Call>, n: nat, values: seq<Value>, rows: seq<Row>, mapper: Row -> Option<T>)
    ensures QueryRun(faults, n, values, rows, mapper).result.Ok? ==>
      var v := QueryRun(faults, n, values, rows, mapper).result.value;
      |v| <= 1 && (rows == [] <==> v == []) && (rows != [] ==> mapper(rows[0]) == Some(v[0]))
    ensures QueryRun(faults, n, values, rows, mapper).result.Err? ==>
      QueryRun(faults, n, values, rows, mapper).result.error.SqlException?
  {
    BindTraceShape(Stmt(n + 1), values, faults);
  }

  class JdbcTemplate {
    const dataSource: DataSource

    constructor (dataSource: DataSource)
      ensures this.dataSource == dataSource
    {
      this.dataSource := dataSource;
    }

    method Update(sql: string, values: seq<Value>) returns (r: Result<()>)
      modifies dataSource
      ensures dataSource.trace == old(dataSource.trace) + UpdateRun(dataSource.faults, |old(dataSource.trace)|, values).trace
      ensures r == UpdateRun(dataSource.faults, |old(dataSource.trace)|, values).result
    {
      var started := Prepare(sql);
      if started.Err? {
        return Err(started.error);
      }
      var (c, pstmt) := started.value;
      var pending := Execute(pstmt, values);
      var e := pstmt.Close();
      pending := Primary(pending, e);
      e := c.Close();
      pending := Primary(pending, e);
      r := if pending.Some? then Err(pending.value) else Ok(());
    }

    method QueryForObject<T>(sql: string, values: seq<Value>, mapper: Row -> Option<T>) returns (r: Result<Option<T>>)
      modifies dataSource
      ensures dataSource.trace == old(dataSource.trace) + QueryForObjectRun(dataSource.faults, |old(dataSource.trace)|, values, dataSource.rows, mapper).trace
      ensures r == QueryForObjectRun(dataSource.faults, |old(dataSource.trace)|, values, dataSource.rows, mapper).result
    {
      var started := OpenSelect(sql, values);
      if started.Err? {
        return Err(started.error);
      }
      var (c, pstmt, rs) := started.value;
      var body := ReadFirst(rs, mapper);
      r := CloseAll(rs, pstmt, c, body);
    }

    method Query<T>(sql: string, values: seq<Value>, mapper: Row -> Option<T>) returns (r: Result<seq<T>>)
      modifies dataSource
      ensures dataSource.trace == old(dataSource.trace) + QueryRun(dataSource.faults, |old(dataSource.trace)|, values, dataSource.rows, mapper).trace
      ensures r == QueryRun(dataSource.faults, |old(dataSource.trace)|, values, dataSource.rows, mapper).result
    {
      var started := OpenSelect(sql, values);
      if started.Err? {
        return Err(started.error);
      }
      var (c, pstmt, rs) := started.value;
      var body := ReadFirstAsList(rs, mapper);
      r := CloseAll(rs, pstmt, c, body);
    }

    /** `getConnection()` then `prepareStatement(sql)`, outside any try: a
        failure returns the SQLException and closes nothing. */
    method Prepare(sql: string) returns (r: Result<(Connection, PreparedStatement)>)
      modifies dataSource
      ensures dataSource.trace == old(dataSource.trace) + AcquireRun(dataSource.faults, |old(dataSource.trace)|)
      ensures r.Err? <==> Call.GetConnection in dataSource.faults || Call.PrepareStatement in dataSource.faults
      ensures r.Err? ==> r.error == SqlException(if Call.GetConnection in dataSource.faults then Call.GetConnection else Call.PrepareStatement)
      ensures r.Ok? ==> fresh(r.value.0) && r.value.0.ds == dataSource && r.value.0.id == |old(dataSource.trace)|
      ensures r.Ok? ==> fresh(r.value.1) && r.value.1.ds == dataSource && r.value.1.id == |old(dataSource.trace)| + 1
    {
      var conn := dataSource.GetConnection();
      if conn.Err? {
        return Err(conn.error);
      }
      var c := conn.value;
      var prepared := c.PrepareStatement(sql);
      if prepared.Err? {
        return Err(prepared.error);
      }
      r := Ok((c, prepared.value));
    }

    /** The try block of `update`: the setter binds, then executeUpdate. */
    method Execute(pstmt: PreparedStatement, values: seq<Value>) returns (e: Option<Exc>)
      modifies pstmt, pstmt.ds
      ensures pstmt.ds.trace == old(pstmt.ds.trace) + UpdateBodyRun(pstmt.ds.faults, Stmt(pstmt.id), values).trace
      ensures e == ErrOf(UpdateBodyRun(pstmt.ds.faults, Stmt(pstmt.id), values).result)
    {
      e := SetParameters(pstmt, values);
      if e.None? {
        e := pstmt.ExecuteUpdate();
      }
    }

    /** Everything a query does before its try statement. */
    method OpenSelect(sql: string, values: seq<Value>) returns (r: Result<(Connection, PreparedStatement, ResultSet)>)
      modifies dataSource
      ensures dataSource.trace == old(dataSource.trace) + SelectOpenRun(dataSource.faults, |old(dataSource.trace)|, values).trace
      ensures r.Err? <==> SelectOpenRun(dataSource.faults, |old(dataSource.trace)|, values).result.Err?
      ensures r.Err? ==> r.error == SelectOpenRun(dataSource.faults, |old(dataSource.trace)|, values).result.error
      ensures r.Ok? ==> fresh(r.value.0) && r.value.0.ds == dataSource && r.value.0.id == |old(dataSource.trace)|
      ensures r.Ok? ==> fresh(r.value.1) && r.value.1.ds == dataSource && r.value.1.id == |old(dataSource.trace)| + 1
      ensures r.Ok? ==> fresh(r.value.2) && r.value.2.ds == dataSource
      ensures r.Ok? ==> r.value.2.id == DaoRsId(dataSource.faults, |old(dataSource.trace)|, values)
      ensures r.Ok? ==> r.value.2.rows == dataSource.rows && r.value.2.cursor == 0
    {
      ghost var n := |dataSource.trace|;
      var started := Prepare(sql);
      if started.Err? {
        return Err(started.error);
      }
      var (c, pstmt) := started.value;
      var e := SetParameters(pstmt, values);
      if e.Some? {
        return Err(e.value);
      }
      assert |dataSource.trace| == DaoRsId(dataSource.faults, n, values);
      var executed := pstmt.ExecuteQuery();
      if executed.Err? {
        return Err(executed.error);
      }
      r := Ok((c, pstmt, executed.value));
    }

    /** `if (rs.next()) results.add(rowMapper.mapRow(rs)); return results;` */
    method ReadFirstAsList<T>(rs: ResultSet, mapper: Row -> Option<T>) returns (r: Result<seq<T>>)
      requires rs.cursor == 0
      modifies rs, rs.ds
      ensures rs.ds.trace == old(rs.ds.trace) + FirstAsListRun(Rs(rs.id), rs.rows, mapper, rs.ds.faults).trace
      ensures r == FirstAsListRun(Rs(rs.id), rs.rows, mapper, rs.ds.faults).result
      ensures rs.closed == old(rs.closed)
    {
      var results: seq<T> := [];
      var first := ReadFirst(rs, mapper);
      if first.Err? {
        return Err(first.error);
      }
      if first.value.Some? {
        results := results + [first.value.value];
        assert results == [first.value.value];
      }
      return Ok(results);
    }

    /** The closes of `try (conn; pstmt; rs)`. */
    method CloseAll<U>(rs: ResultSet, pstmt: PreparedStatement, c: Connection, body: Result<U>) returns (r: Result<U>)
      requires rs.ds == c.ds && pstmt.ds == c.ds
      modifies rs, pstmt, c, c.ds
      ensures c.ds.trace == old(c.ds.trace) + CloseAllRun(c.ds.faults, Rs(rs.id), Stmt(pstmt.id), Conn(c.id), body).trace
      ensures r == CloseAllRun(c.ds.faults, Rs(rs.id), Stmt(pstmt.id), Conn(c.id), body).result
      ensures rs.closed == (old(rs.closed) || Call.Close(ResultSetKind) !in c.ds.faults)
      ensures pstmt.closed == (old(pstmt.closed) || Call.Close(StatementKind) !in c.ds.faults)
      ensures c.closed == (old(c.closed) || Call.Close(ConnectionKind) !in c.ds.faults)
      ensures c.autoCommit == old(c.autoCommit)
    {
      var pending := ErrOf(body);
      var e := rs.Close();
      pending := Primary(pending, e);
      e := pstmt.Close();
      pending := Primary(pending, e);
      e := c.Close();
      pending := Primary(pending, e);
      r := if pending.Some? then Err(pending.value) else body;
    }
  }
}
