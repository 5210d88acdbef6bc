/** The statement template of package org.springframework.jdbc.core.

    Each operation opens a connection and a prepared statement (and, for the
    queries, a result set) as resources of one try-with-resources statement,
    binds the arguments positionally while the statement is being produced,
    and turns every SQLException into a DataAccessException. Resources are
    closed in the reverse order of their opening; an exception thrown by a
    close is suppressed when another one is already pending. */
module CoreJdbcTemplate {
  import opened Jdbc
  import opened Lifecycle
  import opened Binding
  import opened Rows

  /** `catch (SQLException e) { throw new DataAccessException(e); }` */
  function Translate(e: Exc): (r: Exc)
    ensures e.SqlException? ==> r == DataAccess(e)
    ensures !e.SqlException? ==> r == e
  {
    if e.SqlException? then DataAccess(e) else e
  }

  /** getPreparedstatement on a statement named sid: prepare it, then bind. */
  function PrepareRun(faults: set<Call>, sid: nat, columns: seq<Value>): Run<()>
  {
    if PrepareStatement in faults then
      Run([Event(Stmt(sid), PrepareStatement, false)], Err(SqlException(PrepareStatement)))
    else
      var bound := BindError(columns, faults);
      Run([Event(Stmt(sid), PrepareStatement, true)] + BindTrace(Stmt(sid), columns, faults),
          if bound.Some? then Err(bound.value) else Ok(()))
  }

  /** Opening the first resources of the try block: the connection, then
      the statement with its bindings. When preparing or binding throws, only
      the connection is a resource yet, and it alone is closed. */
  function OpenRun(faults: set<Call>, n: nat, columns: seq<Value>): Run<()>
  {
    var c := Conn(n);
    if GetConnection in faults then
      Run([Event(c, GetConnection, false)], Err(Translate(SqlException(GetConnection))))
    else
      var prep := PrepareRun(faults, n + 1, columns);
      var acquired := [Event(c, GetConnection, true)] + prep.trace;
      if prep.result.Err? then
        Run(acquired + [CloseEvent(faults, c, ConnectionKind)], Err(Translate(prep.result.error)))
      else Run(acquired, Ok(()))
  }

  /** The run of `update` started when the journal held n entries. */
  function UpdateRun(faults: set<Call>, n: nat, columns: seq<Value>): Run<()>
  {
    var head := OpenRun(faults, n, columns);
    if head.result.Err? then head
    else
      var c := Conn(n);
      var s := Stmt(n + 1);
      var body := Thrown(faults, ExecuteUpdate);
      var pending := Primary(Primary(body, Thrown(faults, Close(StatementKind))), Thrown(faults, Close(ConnectionKind)));
      Run(head.trace + [Event(s, ExecuteUpdate, body.None?), CloseEvent(faults, s, StatementKind), CloseEvent(faults, c, ConnectionKind)],
          if pending.Some? then Err(Translate(pending.value)) else Ok(()))
  }

  /** The name of the result set a query opens. */
  function RsId(faults: set<Call>, n: nat, columns: seq<Value>): nat
  {
    n + 1 + |PrepareRun(faults, n + 1, columns).trace|
  }

  /** Opening all three resources of a query: after the connection and the
      statement, executeQuery opens the result set; when it throws, the
      statement and the connection are closed. */
  function SelectOpenRun(faults: set<Call>, n: nat, columns: seq<Value>): Run<()>
  {
    var head := OpenRun(faults, n, columns);
    if head.result.Err? then head
    else
      var r := Rs(RsId(faults, n, columns));
      if ExecuteQuery in faults then
        Run(head.trace + [Event(r, ExecuteQuery, false), CloseEvent(faults, Stmt(n + 1), StatementKind), CloseEvent(faults, Conn(n), ConnectionKind)],
            Err(Translate(SqlException(ExecuteQuery))))
      else Run(head.trace + [Event(r, ExecuteQuery, true)], Ok(()))
  }

  /** The run of a query whose result-set body is `body`, started when the
      journal held n entries (shared by `query` and `queryForObject`). */
  function SelectRun<U>(faults: set<Call>, n: nat, columns: seq<Value>, body: Run<U>): Run<U>
  {
    var head := SelectOpenRun(faults, n, columns);
    if head.result.Err? then Run(head.trace, Err(head.result.error))
    else
      var closing := CloseAllRun(faults, Rs(RsId(faults, n, columns)), Stmt(n + 1), Conn(n), body.result);
      Run(head.trace + body.trace + closing.trace, closing.result)
  }

  /** Leaving the try block of a query: close the result set, the statement
      and the connection, in that order, each close exception suppressed by
      an exception already pending. */
  function CloseAllRun<U>(faults: set<Call>, r: Res, s: Res, c: Res, body: Result<U>): Run<U>
  {
    var pending := Primary(Primary(Primary(ErrOf(body), Thrown(faults, Close(ResultSetKind))),
                                   Thrown(faults, Close(StatementKind))),
                           Thrown(faults, Close(ConnectionKind)));
    Run([CloseEvent(faults, r, ResultSetKind), CloseEvent(faults, s, StatementKind), CloseEvent(faults, c, ConnectionKind)],
        if pending.Some? then Err(Translate(pending.value)) else body)
  }

  function QueryRun<T>(faults: set<Call>, n: nat, columns: seq<Value>, rows: seq<Row>, mapper: Row -> Option<T>): Run<seq<T>>
  {
    SelectRun(faults, n, columns, CollectRun(Rs(RsId(faults, n, columns)), rows, mapper, faults))
  }

  function QueryForObjectRun<T>(faults: set<Call>, n: nat, columns: seq<Value>, rows: seq<Row>, mapper: Row -> Option<T>): Run<Option<T>>
  {
    SelectRun(faults, n, columns, FirstRowRun(Rs(RsId(faults, n, columns)), rows, mapper, faults))
  }

  /** The binding leak: the statement was prepared but one of its bindings
      threw, so the statement never became a resource of the try block. */
  predicate BindLeaks(faults: set<Call>, columns: seq<Value>)
  {
    PrepareStatement !in faults && BindError(columns, faults).Some?
  }

  /** Producing the statement opens it exactly when prepareStatement succeeds,
      closes nothing, and fails exactly when preparing or some binding throws. */
  lemma PrepareShape(faults: set<Call>, sid: nat, columns: seq<Value>)
    ensures Opened(PrepareRun(faults, sid, columns).trace) == (if PrepareStatement in faults then [] else [Stmt(sid)])
    ensures Closed(PrepareRun(faults, sid, columns).trace) == []
    ensures PrepareRun(faults, sid, columns).result.Ok? <==>
      PrepareStatement !in faults && forall i | 0 <= i < |columns| :: Bind(columns, i) !in faults
    ensures PrepareRun(faults, sid, columns).result.Err? ==>
      PrepareRun(faults, sid, columns).result.error ==
        (if PrepareStatement in faults then SqlException(PrepareStatement) else BindError(columns, faults).value)
  {
    var e := Event(Stmt(sid), PrepareStatement, PrepareStatement !in faults);
    One(e);
    BindTraceShape(Stmt(sid), columns, faults);
    if PrepareStatement !in faults {
      var b := BindTrace(Stmt(sid), columns, faults);
      BindTraceQuiet(Stmt(sid), columns, faults);
      QuietInert(b);
      Append([e], b);
    }
  }

  /** The connection event and the statement events that open `update`. */
  lemma AcquireShape(faults: set<Call>, n: nat, columns: seq<Value>)
    requires GetConnection !in faults
    ensures Opened([Event(Conn(n), GetConnection, true)] + PrepareRun(faults, n + 1, columns).trace) ==
      (if PrepareStatement in faults then [Conn(n)] else [Conn(n), Stmt(n + 1)])
    ensures Closed([Event(Conn(n), GetConnection, true)] + PrepareRun(faults, n + 1, columns).trace) == []
  {
    var got := Event(Conn(n), GetConnection, true);
    One(got);
    PrepareShape(faults, n + 1, columns);
    Append([got], PrepareRun(faults, n + 1, columns).trace);
  }

  /** The resources the opening steps open, and the connection they close
      when preparing or binding fails. */
  lemma OpenResources(faults: set<Call>, n: nat, columns: seq<Value>)
    ensures GetConnection in faults ==>
      Opened(OpenRun(faults, n, columns).trace) == [] && Closed(OpenRun(faults, n, columns).trace) == []
    ensures GetConnection !in faults && PrepareStatement in faults ==>
      Opened(OpenRun(faults, n, columns).trace) == [Conn(n)] && Closed(OpenRun(faults, n, columns).trace) == [Conn(n)]
    ensures GetConnection !in faults && BindLeaks(faults, columns) ==>
      Opened(OpenRun(faults, n, columns).trace) == [Conn(n), Stmt(n + 1)] &&
      Closed(OpenRun(faults, n, columns).trace) == [Conn(n)]
    ensures GetConnection !in faults && PrepareRun(faults, n + 1, columns).result.Ok? ==>
      Opened(OpenRun(faults, n, columns).trace) == [Conn(n), Stmt(n + 1)] &&
      Closed(OpenRun(faults, n, columns).trace) == []
  {
    if GetConnection in faults {
      One(Event(Conn(n), GetConnection, false));
    } else {
      var prep := PrepareRun(faults, n + 1, columns);
      PrepareShape(faults, n + 1, columns);
      AcquireShape(faults, n, columns);
      if prep.result.Err? {
        var acquired := [Event(Conn(n), GetConnection, true)] + prep.trace;
        var closeC := CloseEvent(faults, Conn(n), ConnectionKind);
        One(closeC);
        Append(acquired, [closeC]);
      }
    }
  }

  /** The resources `update` opens and the order of its close attempts. */
  lemma UpdateResources(faults: set<Call>, n: nat, columns: seq<Value>)
    ensures GetConnection in faults ==>
      Opened(UpdateRun(faults, n, columns).trace) == [] && Closed(UpdateRun(faults, n, columns).trace) == []
    ensures GetConnection !in faults && PrepareStatement in faults ==>
      Opened(UpdateRun(faults, n, columns).trace) == [Conn(n)] && Closed(UpdateRun(faults, n, columns).trace) == [Conn(n)]
    ensures GetConnection !in faults && BindLeaks(faults, columns) ==>
      Opened(UpdateRun(faults, n, columns).trace) == [Conn(n), Stmt(n + 1)] &&
      Closed(UpdateRun(faults, n, columns).trace) == [Conn(n)]
    ensures GetConnection !in faults && PrepareRun(faults, n + 1, columns).result.Ok? ==>
      Opened(UpdateRun(faults, n, columns).trace) == [Conn(n), Stmt(n + 1)] &&
      Closed(UpdateRun(faults, n, columns).trace) == [Stmt(n + 1), Conn(n)]
  {
    OpenResources(faults, n, columns);
    var head := OpenRun(faults, n, columns);
    if head.result.Ok? {
      var s := Stmt(n + 1);
      var exec := Event(s, ExecuteUpdate, ExecuteUpdate !in faults);
      var tail := [CloseEvent(faults, s, StatementKind), CloseEvent(faults, Conn(n), ConnectionKind)];
      assert Quiet([exec]);
      CloseTailShape(head.trace, [exec], tail);
      assert head.trace + [exec] + tail == UpdateRun(faults, n, columns).trace;
    }
  }

  /** `update` closes the statement and the connection, last opened first,
      on every path but one: when a binding throws, the prepared statement
      is never closed. */
  lemma UpdateLifecycle(faults: set<Call>, n: nat, columns: seq<Value>)
    ensures ProperlyClosed(UpdateRun(faults, n, columns).trace) <==> !(GetConnection !in faults && BindLeaks(faults, columns))
  {
    UpdateResources(faults, n, columns);
    ReverseOne(Conn(n));
    ReverseTwo(Conn(n), Stmt(n + 1));
    PrepareShape(faults, n + 1, columns);
    BindTraceShape(Stmt(n + 1), columns, faults);
  }

  /** `update` reaches executeUpdate exactly when the connection, the
      statement and every binding succeed. */
  predicate UpdateReached(faults: set<Call>, n: nat, columns: seq<Value>)
  {
    GetConnection !in faults && PrepareRun(faults, n + 1, columns).result.Ok?
  }

  /** `update` succeeds exactly when no driver call it makes throws; every
      failure surfaces as a DataAccessException wrapping the SQLException, and
      a failing executeUpdate is the one reported even when the closes after
      it throw as well. */
  lemma UpdateOutcome(faults: set<Call>, n: nat, columns: seq<Value>)
    ensures UpdateRun(faults, n, columns).result.Ok? <==>
      GetConnection !in faults && PrepareStatement !in faults &&
      (forall i | 0 <= i < |columns| :: Bind(columns, i) !in faults) &&
      ExecuteUpdate !in faults && Close(StatementKind) !in faults && Close(ConnectionKind) !in faults
    ensures UpdateRun(faults, n, columns).result.Err? ==>
      UpdateRun(faults, n, columns).result.error.DataAccess? &&
      UpdateRun(faults, n, columns).result.error.cause.SqlException?
    ensures UpdateReached(faults, n, columns) && ExecuteUpdate in faults ==>
      UpdateRun(faults, n, columns).result == Err(DataAccess(SqlException(ExecuteUpdate)))
  {
    PrepareShape(faults, n + 1, columns);
  }

  /** The statement runs once, after every binding in parameter order, and
      only when it was reached. */
  lemma UpdateExecutesOnce(faults: set<Call>, n: nat, columns: seq<Value>)
    ensures !UpdateReached(faults, n, columns) ==>
      forall j | 0 <= j < |UpdateRun(faults, n, columns).trace| :: UpdateRun(faults, n, columns).trace[j].call != ExecuteUpdate
    ensures UpdateReached(faults, n, columns) ==>
      var t := UpdateRun(faults, n, columns).trace;
      |t| == |columns| + 5 &&
      (forall j | 0 <= j < |columns| :: t[j + 2] == Event(Stmt(n + 1), SetObject(j + 1, columns[j]), true)) &&
      (forall j | 0 <= j < |t| :: t[j].call == ExecuteUpdate <==> j == |columns| + 2)
  {
    if UpdateReached(faults, n, columns) {
      UpdateReachedTrace(faults, n, columns);
    } else if GetConnection !in faults && PrepareStatement !in faults {
      UpdateBindFailureTrace(faults, n, columns);
    }
  }

  lemma UpdateReachedTrace(faults: set<Call>, n: nat, columns: seq<Value>)
    requires UpdateReached(faults, n, columns)
    ensures var t := UpdateRun(faults, n, columns).trace;
      |t| == |columns| + 5 &&
      (forall j | 0 <= j < |columns| :: t[j + 2] == Event(Stmt(n + 1), SetObject(j + 1, columns[j]), true)) &&
      (forall j | 0 <= j < |t| :: t[j].call == ExecuteUpdate <==> j == |columns| + 2)
  {
    var s := Stmt(n + 1);
    BindTraceShape(s, columns, faults);
    BindTraceOnlyBinds(s, columns, faults);
    var b := BindTrace(s, columns, faults);
    var pre := [Event(Conn(n), GetConnection, true), Event(s, PrepareStatement, true)] + b;
    assert OpenRun(faults, n, columns).trace == pre;
    var tail := [Event(s, ExecuteUpdate, ExecuteUpdate !in faults),
                 CloseEvent(faults, s, StatementKind), CloseEvent(faults, Conn(n), ConnectionKind)];
    var t := UpdateRun(faults, n, columns).trace;
    assert t == pre + tail;
    assert |pre| == |columns| + 2;
    forall j | 0 <= j < |columns| ensures t[j + 2] == Event(s, SetObject(j + 1, columns[j]), true) {
      assert t[j + 2] == pre[j + 2] == b[j];
    }
    forall j | 0 <= j < |t| ensures t[j].call == ExecuteUpdate <==> j == |columns| + 2 {
      if j < |pre| {
        assert t[j] == pre[j];
        if 2 <= j {
          assert pre[j] == b[j - 2];
        }
      } else {
        assert t[j] == tail[j - |pre|];
      }
    }
  }

  lemma UpdateBindFailureTrace(faults: set<Call>, n: nat, columns: seq<Value>)
    requires GetConnection !in faults && PrepareStatement !in faults && !UpdateReached(faults, n, columns)
    ensures forall j | 0 <= j < |UpdateRun(faults, n, columns).trace| :: UpdateRun(faults, n, columns).trace[j].call != ExecuteUpdate
  {
    var s := Stmt(n + 1);
    BindTraceOnlyBinds(s, columns, faults);
    var b := BindTrace(s, columns, faults);
    var prep := [Event(Conn(n), GetConnection, true), Event(s, PrepareStatement, true)];
    var t := UpdateRun(faults, n, columns).trace;
    assert t == prep + b + [CloseEvent(faults, Conn(n), ConnectionKind)];
    forall j | 0 <= j < |t| ensures t[j].call != ExecuteUpdate {
      if 2 <= j < |b| + 2 {
        assert t[j] == b[j - 2];
      }
    }
  }

  /** The resources a query opens and the order of its close attempts, for
      any body that itself neither opens nor closes anything. */
  lemma SelectResources<U>(faults: set<Call>, n: nat, columns: seq<Value>, body: Run<U>)
    requires Quiet(body.trace)
    ensures GetConnection in faults ==>
      Opened(SelectRun(faults, n, columns, body).trace) == [] && Closed(SelectRun(faults, n, columns, body).trace) == []
    ensures GetConnection !in faults && PrepareStatement in faults ==>
      Opened(SelectRun(faults, n, columns, body).trace) == [Conn(n)] &&
      Closed(SelectRun(faults, n, columns, body).trace) == [Conn(n)]
    ensures GetConnection !in faults && BindLeaks(faults, columns) ==>
      Opened(SelectRun(faults, n, columns, body).trace) == [Conn(n), Stmt(n + 1)] &&
      Closed(SelectRun(faults, n, columns, body).trace) == [Conn(n)]
    ensures GetConnection !in faults && PrepareRun(faults, n + 1, columns).result.Ok? && ExecuteQuery in faults ==>
      Opened(SelectRun(faults, n, columns, body).trace) == [Conn(n), Stmt(n + 1)] &&
      Closed(SelectRun(faults, n, columns, body).trace) == [Stmt(n + 1), Conn(n)]
    ensures GetConnection !in faults && PrepareRun(faults, n + 1, columns).result.Ok? && ExecuteQuery !in faults ==>
      Opened(SelectRun(faults, n, columns, body).trace) == [Conn(n), Stmt(n + 1), Rs(RsId(faults, n, columns))] &&
      Closed(SelectRun(faults, n, columns, body).trace) == [Rs(RsId(faults, n, columns)), Stmt(n + 1), Conn(n)]
  {
    OpenResources(faults, n, columns);
    var head := OpenRun(faults, n, columns);
    if head.result.Ok? {
      if ExecuteQuery in faults {
        var exec := Event(Rs(RsId(faults, n, columns)), ExecuteQuery, false);
        var tail := [CloseEvent(faults, Stmt(n + 1), StatementKind), CloseEvent(faults, Conn(n), ConnectionKind)];
        assert Quiet([exec]);
        CloseTailShape(head.trace, [exec], tail);
        assert head.trace + [exec] + tail == SelectRun(faults, n, columns, body).trace;
      } else {
        SelectRunningShape(faults, n, columns, body);
      }
    }
  }

  lemma SelectRunningShape<U>(faults: set<Call>, n: nat, columns: seq<Value>, body: Run<U>)
    requires Quiet(body.trace)
    requires GetConnection !in faults && PrepareRun(faults, n + 1, columns).result.Ok? && ExecuteQuery !in faults
    ensures Opened(SelectRun(faults, n, columns, body).trace) == [Conn(n), Stmt(n + 1), Rs(RsId(faults, n, columns))]
    ensures Closed(SelectRun(faults, n, columns, body).trace) == [Rs(RsId(faults, n, columns)), Stmt(n + 1), Conn(n)]
  {
    OpenResources(faults, n, columns);
    var head := OpenRun(faults, n, columns).trace;
    var r := Rs(RsId(faults, n, columns));
    var exec := Event(r, ExecuteQuery, true);
    One(exec);
    Append(head, [exec]);
    assert SelectOpenRun(faults, n, columns).trace == head + [exec];
    var closing := CloseAllRun(faults, r, Stmt(n + 1), Conn(n), body.result).trace;
    ThreeCloses(head + [exec], body.trace, closing);
  }

  /** A query closes its result set, statement and connection, last opened
      first, on every path except the binding leak. */
  lemma SelectLifecycle<U>(faults: set<Call>, n: nat, columns: seq<Value>, body: Run<U>)
    requires Quiet(body.trace)
    ensures ProperlyClosed(SelectRun(faults, n, columns, body).trace) <==> !(GetConnection !in faults && BindLeaks(faults, columns))
  {
    SelectResources(faults, n, columns, body);
    ReverseOne(Conn(n));
    ReverseTwo(Conn(n), Stmt(n + 1));
    ReverseThree(Conn(n), Stmt(n + 1), Rs(RsId(faults, n, columns)));
    PrepareShape(faults, n + 1, columns);
    BindTraceShape(Stmt(n + 1), columns, faults);
  }

  /** A query succeeds exactly when the connection, the statement, the
      execution, the body and all three closes succeed, and then it returns
      what the body produced; a body failing with an SQLException surfaces as
      a DataAccessException wrapping it, as does every other failure. */
  lemma SelectOutcome<U>(faults: set<Call>, n: nat, columns: seq<Value>, body: Run<U>)
    ensures SelectRun(faults, n, columns, body).result.Ok? <==>
      GetConnection !in faults && PrepareRun(faults, n + 1, columns).result.Ok? && ExecuteQuery !in faults &&
      body.result.Ok? && Close(ResultSetKind) !in faults && Close(StatementKind) !in faults && Close(ConnectionKind) !in faults
    ensures SelectRun(faults, n, columns, body).result.Ok? ==> SelectRun(faults, n, columns, body).result == body.result
    ensures SelectRun(faults, n, columns, body).result.Err? && (body.result.Err? ==> body.result.error.SqlException?) ==>
      SelectRun(faults, n, columns, body).result.error.DataAccess? &&
      SelectRun(faults, n, columns, body).result.error.cause.SqlException?
    ensures GetConnection !in faults && PrepareRun(faults, n + 1, columns).result.Ok? && ExecuteQuery !in faults && body.result.Err? ==>
      SelectRun(faults, n, columns, body).result == Err(Translate(body.result.error))
  {
    PrepareShape(faults, n + 1, columns);
  }

  /** `query` returns one mapped element per row, in row order, exactly when
      no driver call and no mapping throws; it closes what it opened except
      in the binding leak. */
  lemma QueryMapsEveryRow<T>(faults: set<Call>, n: nat, columns: seq<Value>, rows: seq<Row>, mapper: Row -> Option<T>)
    ensures QueryRun(faults, n, columns, rows, mapper).result.Ok? <==>
      GetConnection !in faults && PrepareStatement !in faults &&
      (forall i | 0 <= i < |columns| :: Bind(columns, i) !in faults) &&
      ExecuteQuery !in faults && Next !in faults &&
      (forall i | 0 <= i < |rows| :: mapper(rows[i]).Some?) &&
      Close(ResultSetKind) !in faults && Close(StatementKind) !in faults && Close(ConnectionKind) !in faults
    ensures QueryRun(faults, n, columns, rows, mapper).result.Ok? ==>
      var v := QueryRun(faults, n, columns, rows, mapper).result.value;
      |v| == |rows| && forall i | 0 <= i < |rows| :: mapper(rows[i]) == Some(v[i])
    ensures QueryRun(faults, n, columns, rows, mapper).result.Err? ==>
      QueryRun(faults, n, columns, rows, mapper).result.error.DataAccess? &&
      QueryRun(faults, n, columns, rows, mapper).result.error.cause.SqlException?
    ensures ProperlyClosed(QueryRun(faults, n, columns, rows, mapper).trace) <==> !(GetConnection !in faults && BindLeaks(faults, columns))
  {
    var body := CollectRun(Rs(RsId(faults, n, columns)), rows, mapper, faults);
    CollectMapsEveryRow(Rs(RsId(faults, n, columns)), rows, mapper, faults);
    PrepareShape(faults, n + 1, columns);
    SelectOutcome(faults, n, columns, body);
    SelectLifecycle(faults, n, columns, body);
  }

  /** `queryForObject` yields the mapped first row, or nothing for an empty
      result, exactly when no driver call and no mapping of that row throws;
      it closes what it opened except in the binding leak. */
  lemma QueryForObjectFirstRow<T>(faults: set<Call>, n: nat, columns: seq<Value>, rows: seq<Row>, mapper: Row -> Option<T>)
    ensures QueryForObjectRun(faults, n, columns, rows, mapper).result.Ok? <==>
      GetConnection !in faults && PrepareStatement !in faults &&
      (forall i | 0 <= i < |columns| :: Bind(columns, i) !in faults) &&
      ExecuteQuery !in faults && Next !in faults &&
      (rows == [] || mapper(rows[0]).Some?) &&
      Close(ResultSetKind) !in faults && Close(StatementKind) !in faults && Close(ConnectionKind) !in faults
    ensures QueryForObjectRun(faults, n, columns, rows, mapper).result.Ok? ==>
      QueryForObjectRun(faults, n, columns, rows, mapper).result.value == (if rows == [] then None else mapper(rows[0]))
    ensures QueryForObjectRun(faults, n, columns, rows, mapper).result.Err? ==>
      QueryForObjectRun(faults, n, columns, rows, mapper).result.error.DataAccess? &&
      QueryForObjectRun(faults, n, columns, rows, mapper).result.error.cause.SqlException?
    ensures ProperlyClosed(QueryForObjectRun(faults, n, columns, rows, mapper).trace) <==> !(GetConnection !in faults && BindLeaks(faults, columns))
  {
    var body := FirstRowRun(Rs(RsId(faults, n, columns)), rows, mapper, faults);
    FirstRowQuiet(Rs(RsId(faults, n, columns)), rows, mapper, faults);
    PrepareShape(faults, n + 1, columns);
    SelectOutcome(faults, n, columns, body);
    SelectLifecycle(faults, n, columns, body);
  }

  /** Only the first row is ever looked at: results that agree on it give the
      same run. */
  lemma QueryForObjectIgnoresLaterRows<T>(faults: set<Call>, n: nat, columns: seq<Value>,
                                         rows: seq<Row>, others: seq<Row>, mapper: Row -> Option<T>)
    requires (rows == []) == (others == [])
    requires rows != [] ==> rows[0] == others[0]
    ensures QueryForObjectRun(faults, n, columns, rows, mapper) == QueryForObjectRun(faults, n, columns, others, mapper)
  {
  }

  class JdbcTemplate {
    const dataSource: DataSource

    constructor (dataSource: DataSource)
      ensures this.dataSource == dataSource
    {
      this.dataSource := dataSource;
    }

    method Update(query: string, columns: seq<Value>) returns (r: Result<()>)
      modifies dataSource
      ensures dataSource.trace == old(dataSource.trace) + UpdateRun(dataSource.faults, |old(dataSource.trace)|, columns).trace
      ensures r == UpdateRun(dataSource.faults, |old(dataSource.trace)|, columns).result
    {
      var started := Open(query, columns);
      if started.Err? {
        return Err(started.error);
      }
      var (c, pstmt) := started.value;
      var pending := pstmt.ExecuteUpdate();
      var e := pstmt.Close();
      pending := Primary(pending, e);
      e := c.Close();
      pending := Primary(pending, e);
      r := if pending.Some? then Err(Translate(pending.value)) else Ok(());
    }

    method Query<T>(query: string, mapper: Row -> Option<T>, columns: seq<Value>) returns (r: Result<seq<T>>)
      modifies dataSource
      ensures dataSource.trace == old(dataSource.trace) + QueryRun(dataSource.faults, |old(dataSource.trace)|, columns, dataSource.rows, mapper).trace
      ensures r == QueryRun(dataSource.faults, |old(dataSource.trace)|, columns, dataSource.rows, mapper).result
    {
      var started := OpenSelect(query, columns);
      if started.Err? {
        return Err(started.error);
      }
      var (c, pstmt, rs) := started.value;
      var body := ReadAll(rs, mapper);
      r := CloseAll(rs, pstmt, c, body);
    }

    method QueryForObject<T>(query: string, mapper: Row -> Option<T>, columns: seq<Value>) returns (r: Result<Option<T>>)
      modifies dataSource
      ensures dataSource.trace == old(dataSource.trace) + QueryForObjectRun(dataSource.faults, |old(dataSource.trace)|, columns, dataSource.rows, mapper).trace
      ensures r == QueryForObjectRun(dataSource.faults, |old(dataSource.trace)|, columns, dataSource.rows, mapper).result
    {
      var started := OpenSelect(query, columns);
      if started.Err? {
        return Err(started.error);
      }
      var (c, pstmt, rs) := started.value;
      var body := ReadFirst(rs, mapper);
      r := CloseAll(rs, pstmt, c, body);
    }

    /** Opens the connection and the prepared statement; when preparing or
        binding throws, closes the connection and hands back the translated
        exception. */
    method Open(query: string, columns: seq<Value>) returns (r: Result<(Connection, PreparedStatement)>)
      modifies dataSource
      ensures dataSource.trace == old(dataSource.trace) + OpenRun(dataSource.faults, |old(dataSource.trace)|, columns).trace
      ensures r.Err? <==> OpenRun(dataSource.faults, |old(dataSource.trace)|, columns).result.Err?
      ensures r.Err? ==> r.error == OpenRun(dataSource.faults, |old(dataSource.trace)|, columns).result.error
      ensures r.Ok? ==> fresh(r.value.0) && r.value.0.ds == dataSource && r.value.0.id == |old(dataSource.trace)|
      ensures r.Ok? ==> fresh(r.value.1) && r.value.1.ds == dataSource && r.value.1.id == |old(dataSource.trace)| + 1
    {
      var conn := dataSource.GetConnection();
      if conn.Err? {
        return Err(Translate(conn.error));
      }
      var c := conn.value;
      var prepared := GetPreparedStatement(c, query, columns);
      if prepared.Err? {
        var _ := c.Close();
        return Err(Translate(prepared.error));
      }
      r := Ok((c, prepared.value));
    }

    /** Opens the connection, the statement and the result set; when
        executeQuery throws, closes the statement and the connection. */
    method OpenSelect(query: string, columns: seq<Value>) returns (r: Result<(Connection, PreparedStatement, ResultSet)>)
      modifies dataSource
      ensures dataSource.trace == old(dataSource.trace) + SelectOpenRun(dataSource.faults, |old(dataSource.trace)|, columns).trace
      ensures r.Err? <==> SelectOpenRun(dataSource.faults, |old(dataSource.trace)|, columns).result.Err?
      ensures r.Err? ==> r.error == SelectOpenRun(dataSource.faults, |old(dataSource.trace)|, columns).result.error
      ensures r.Ok? ==> fresh(r.value.0) && r.value.0.ds == dataSource && r.value.0.id == |old(dataSource.trace)|
      ensures r.Ok? ==> fresh(r.value.1) && r.value.1.ds == dataSource && r.value.1.id == |old(dataSource.trace)| + 1
      ensures r.Ok? ==> fresh(r.value.2) && r.value.2.ds == dataSource
      ensures r.Ok? ==> r.value.2.id == RsId(dataSource.faults, |old(dataSource.trace)|, columns)
      ensures r.Ok? ==> r.value.2.rows == dataSource.rows && r.value.2.cursor == 0
    {
      ghost var n := |dataSource.trace|;
      var started := Open(query, columns);
      if started.Err? {
        return Err(started.error);
      }
      var (c, pstmt) := started.value;
      assert |dataSource.trace| == RsId(dataSource.faults, n, columns);
      var executed := pstmt.ExecuteQuery();
      if executed.Err? {
        var _ := pstmt.Close();
        var _ := c.Close();
        return Err(Translate(executed.error));
      }
      r := Ok((c, pstmt, executed.value));
    }

    /** Closes the three resources of a query whose body ended with `body`. */
    method CloseAll<U>(rs: ResultSet, pstmt: PreparedStatement, c: Connection, body: Result<U>) returns (r: Result<U>)
      requires rs.ds == c.ds && pstmt.ds == c.ds
      modifies rs, pstmt, c, c.ds
      ensures c.ds.trace == old(c.ds.trace) + CloseAllRun(c.ds.faults, Rs(rs.id), Stmt(pstmt.id), Conn(c.id), body).trace
      ensures r == CloseAllRun(c.ds.faults, Rs(rs.id), Stmt(pstmt.id), Conn(c.id), body).result
      ensures rs.closed == (old(rs.closed) || Call.Close(ResultSetKind) !in c.ds.faults)
      ensures pstmt.closed == (old(pstmt.closed) || Call.Close(StatementKind) !in c.ds.faults)
      ensures c.closed == (old(c.closed) || Call.Close(ConnectionKind) !in c.ds.faults)
      ensures c.autoCommit == old(c.autoCommit)
    {
      var pending := ErrOf(body);
      var e := rs.Close();
      pending := Primary(pending, e);
      e := pstmt.Close();
      pending := Primary(pending, e);
      e := c.Close();
      pending := Primary(pending, e);
      r := if pending.Some? then Err(Translate(pending.value)) else body;
    }

    /** Prepares the statement and binds the columns. When a binding throws,
        the statement is already open but is not handed back to the caller. */
    method GetPreparedStatement(conn: Connection, query: string, columns: seq<Value>) returns (r: Result<PreparedStatement>)
      modifies conn.ds
      ensures conn.ds.trace == old(conn.ds.trace) + PrepareRun(conn.ds.faults, |old(conn.ds.trace)|, columns).trace
      ensures r.Err? <==> PrepareRun(conn.ds.faults, |old(conn.ds.trace)|, columns).result.Err?
      ensures r.Err? ==> r.error == PrepareRun(conn.ds.faults, |old(conn.ds.trace)|, columns).result.error
      ensures r.Ok? ==> fresh(r.value) && r.value.ds == conn.ds && r.value.id == |old(conn.ds.trace)|
      ensures r.Ok? ==> r.value.sql == query && !r.value.closed && r.value.params == Params(columns, |columns|)
    {
      var prepared := conn.PrepareStatement(query);
      if prepared.Err? {
        return prepared;
      }
      var pstmt := prepared.value;
      var e := SetParameters(pstmt, columns);
      if e.Some? {
        return Err(e.value);
      }
      return Ok(pstmt);
    }
  }
}
