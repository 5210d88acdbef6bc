/** The statement template of package nextstep.jdbc.

    Every operation goes through one `execute`: the connection and the
    prepared statement are the resources of a try-with-resources statement,
    the parameters are bound inside its block, and an executor then runs the
    statement. An SQLException is rethrown wrapped in a RuntimeException; the
    size check of `queryForObject` throws its own DataAccessException, which
    is not an SQLException and passes through unwrapped. The result set that
    a query opens is handed to the row extractor and is never closed
    explicitly here; only the driver's cascade on closing the statement
    would close it, and that cascade is not modelled. */
module NextstepJdbcTemplate {
  import opened Jdbc
  import opened Lifecycle
  import opened Binding
  import opened Rows

  /** `catch (SQLException e) { throw new RuntimeException(e); }` */
  function Wrap(e: Exc): (r: Exc)
    ensures e.SqlException? ==> r == Wrapped(e)
    ensures !e.SqlException? ==> r == e
  {
    if e.SqlException? then Wrapped(e) else e
  }

  /** The size check: no row and more than one row are both errors, the
      second carrying the number of rows. */
  function ValidateExecuteResultSize<T>(results: seq<T>): (e: Option<Exc>)
    ensures e.None? <==> |results| == 1
  {
    if |results| == 0 then Some(EmptyResult)
    else if |results| >= 2 then Some(NotSingleResult(|results|))
    else None
  }

  /** The single element of a one-element result, else the size error. */
  function GetSingleRow<T>(results: seq<T>): (r: Result<T>)
    ensures r.Ok? <==> |results| == 1
    ensures r.Ok? ==> results == [r.value]
    ensures |results| == 0 ==> r == Err(EmptyResult)
    ensures |results| >= 2 ==> r == Err(NotSingleResult(|results|))
  {
    var invalid := ValidateExecuteResultSize(results);
    if invalid.Some? then Err(invalid.value) else Ok(results[0])
  }

  /** The three lambdas handed to `execute`. */
  datatype Executor<T> = UpdateStatement | QueryRows(mapper: Row -> Option<T>) | QuerySingle(mapper: Row -> Option<T>)

  /** What an executor hands back: nothing, a list, or a single object. */
  datatype Answer<T> = Updated | Listed(items: seq<T>) | Found(item: T)

  /** `execute(statement, rowMapper)`: run the query, then collect every row
      of the result set named rsId. */
  function ExtractRun<T>(faults: set<Call>, rsId: nat, rows: seq<Row>, mapper: Row -> Option<T>): Run<seq<T>>
  {
    var r := Rs(rsId);
    if ExecuteQuery in faults then Run([Event(r, ExecuteQuery, false)], Err(SqlException(ExecuteQuery)))
    else
      var collected := CollectRun(r, rows, mapper, faults);
      Run([Event(r, ExecuteQuery, true)] + collected.trace, collected.result)
  }

  /** An executor run on statement sid; a query names its result set rsId. */
  function ExecutorRun<T>(faults: set<Call>, sid: nat, rsId: nat, rows: seq<Row>, ex: Executor<T>): Run<Answer<T>>
  {
    match ex
    case UpdateStatement =>
      var e := Thrown(faults, ExecuteUpdate);
      Run([Event(Stmt(sid), ExecuteUpdate, e.None?)], if e.Some? then Err(e.value) else Ok(Updated))
    case QueryRows(mapper) =>
      var x := ExtractRun(faults, rsId, rows, mapper);
      Run(x.trace, if x.result.Err? then Err(x.result.error) else Ok(Listed(x.result.value)))
    case QuerySingle(mapper) =>
      var x := ExtractRun(faults, rsId, rows, mapper);
      Run(x.trace,
          if x.result.Err? then Err(x.result.error)
          else var single := GetSingleRow(x.result.value);
            if single.Err? then Err(single.error) else Ok(Found(single.value)))
  }

  /** The name of the result set a query opens: the journal index right after
      the bindings. */
  function ExecRsId(faults: set<Call>, n: nat, parameters: seq<Value>): nat
  {
    n + 2 + |BindTrace(Stmt(n + 1), parameters, faults)|
  }

  /** The body of the try block on statement sid, begun when the journal held
      `at` entries: bind, then run the executor. */
  function BodyRun<T>(faults: set<Call>, sid: nat, at: nat, parameters: seq<Value>, rows: seq<Row>, ex: Executor<T>): Run<Answer<T>>
  {
    var binds := BindTrace(Stmt(sid), parameters, faults);
    var bindError := BindError(parameters, faults);
    if bindError.Some? then Run(binds, Err(bindError.value))
    else var x := ExecutorRun(faults, sid, at + |binds|, rows, ex);
      Run(binds + x.trace, x.result)
  }

  /** The resources of the try statement: the connection, then the
      statement. When preparing throws, the connection alone is closed. */
  function OpenRun(faults: set<Call>, n: nat): Run<()>
  {
    var c := Conn(n);
    if GetConnection in faults then
      Run([Event(c, GetConnection, false)], Err(Wrap(SqlException(GetConnection))))
    else if PrepareStatement in faults then
      Run([Event(c, GetConnection, true), Event(Stmt(n + 1), PrepareStatement, false), CloseEvent(faults, c, ConnectionKind)],
          Err(Wrap(SqlException(PrepareStatement))))
    else Run([Event(c, GetConnection, true), Event(Stmt(n + 1), PrepareStatement, true)], Ok(()))
  }

  /** The run of `execute(sql, executor, parameters)` started when the
      journal held n entries. */
  function ExecuteRun<T>(faults: set<Call>, n: nat, parameters: seq<Value>, rows: seq<Row>, ex: Executor<T>): Run<Answer<T>>
  {
    var head := OpenRun(faults, n);
    if head.result.Err? then Run(head.trace, Err(head.result.error))
    else
      var body := BodyRun(faults, n + 1, n + 2, parameters, rows, ex);
      var closing := CloseBothRun(faults, Stmt(n + 1), Conn(n), body.result);
      Run(head.trace + body.trace + closing.trace, closing.result)
  }

  /** Leaving the try statement: the statement, then the connection, is
      closed, each close exception suppressed by one already pending, and
      what remains pending is wrapped. */
  function CloseBothRun<U>(faults: set<Call>, s: Res, c: Res, body: Result<U>): Run<U>
  {
    var pending := Primary(Primary(ErrOf(body), Thrown(faults, Close(StatementKind))), Thrown(faults, Close(ConnectionKind)));
    Run([CloseEvent(faults, s, StatementKind), CloseEvent(faults, c, ConnectionKind)],
        if pending.Some? then Err(Wrap(pending.value)) else body)
  }

  /** A successful run answers in the executor's own shape. */
  lemma AnswerShape<T>(faults: set<Call>, n: nat, parameters: seq<Value>, rows: seq<Row>, ex: Executor<T>)
    ensures ExecuteRun(faults, n, parameters, rows, ex).result.Ok? ==>
      var a := ExecuteRun(faults, n, parameters, rows, ex).result.value;
      (ex.UpdateStatement? ==> a.Updated?) && (ex.QueryRows? ==> a.Listed?) && (ex.QuerySingle? ==> a.Found?)
  {
  }

  /** Running a query opens its result set unless executeQuery throws, and
      closes nothing. */
  lemma ExtractResources<T>(faults: set<Call>, rsId: nat, rows: seq<Row>, mapper: Row -> Option<T>)
    ensures Opened(ExtractRun(faults, rsId, rows, mapper).trace) == (if ExecuteQuery !in faults then [Rs(rsId)] else [])
    ensures Closed(ExtractRun(faults, rsId, rows, mapper).trace) == []
    ensures forall j | 0 <= j < |ExtractRun(faults, rsId, rows, mapper).trace| ::
      !ExtractRun(faults, rsId, rows, mapper).trace[j].call.SetObject?
  {
    var r := Rs(rsId);
    if ExecuteQuery in faults {
      One(Event(r, ExecuteQuery, false));
    } else {
      var collected := CollectRun(r, rows, mapper, faults).trace;
      var exec := Event(r, ExecuteQuery, true);
      CollectMapsEveryRow(r, rows, mapper, faults);
      CollectOnlyNext(r, rows, mapper, faults);
      QuietInert(collected);
      One(exec);
      Append([exec], collected);
      var t := ExtractRun(faults, rsId, rows, mapper).trace;
      assert t == [exec] + collected;
      forall j | 0 <= j < |t| ensures !t[j].call.SetObject? {
        if j > 0 {
          assert t[j] == collected[j - 1];
        }
      }
    }
  }

  /** The executor's journal opens the result set exactly when a query runs,
      and closes nothing. */
  lemma ExecutorResources<T>(faults: set<Call>, sid: nat, rsId: nat, rows: seq<Row>, ex: Executor<T>)
    ensures Opened(ExecutorRun(faults, sid, rsId, rows, ex).trace) ==
      (if !ex.UpdateStatement? && ExecuteQuery !in faults then [Rs(rsId)] else [])
    ensures Closed(ExecutorRun(faults, sid, rsId, rows, ex).trace) == []
    ensures forall j | 0 <= j < |ExecutorRun(faults, sid, rsId, rows, ex).trace| ::
      !ExecutorRun(faults, sid, rsId, rows, ex).trace[j].call.SetObject?
  {
    if ex.UpdateStatement? {
      One(Event(Stmt(sid), ExecuteUpdate, ExecuteUpdate !in faults));
    } else {
      ExtractResources(faults, rsId, rows, ex.mapper);
      assert ExecutorRun(faults, sid, rsId, rows, ex).trace == ExtractRun(faults, rsId, rows, ex.mapper).trace;
    }
  }

  /** `execute` opens the result set of a query that gets as far as running it. */
  predicate ResultSetOpened<T>(faults: set<Call>, parameters: seq<Value>, ex: Executor<T>)
  {
    GetConnection !in faults && PrepareStatement !in faults && BindError(parameters, faults).None? &&
    !ex.UpdateStatement? && ExecuteQuery !in faults
  }

  lemma BodyResources<T>(faults: set<Call>, n: nat, parameters: seq<Value>, rows: seq<Row>, ex: Executor<T>)
    ensures Opened(BodyRun(faults, n + 1, n + 2, parameters, rows, ex).trace) ==
      (if BindError(parameters, faults).None? && !ex.UpdateStatement? && ExecuteQuery !in faults
       then [Rs(ExecRsId(faults, n, parameters))] else [])
    ensures Closed(BodyRun(faults, n + 1, n + 2, parameters, rows, ex).trace) == []
  {
    var binds := BindTrace(Stmt(n + 1), parameters, faults);
    BindTraceQuiet(Stmt(n + 1), parameters, faults);
    QuietInert(binds);
    if BindError(parameters, faults).None? {
      var x := ExecutorRun(faults, n + 1, ExecRsId(faults, n, parameters), rows, ex);
      ExecutorResources(faults, n + 1, ExecRsId(faults, n, parameters), rows, ex);
      Append(binds, x.trace);
    }
  }

  /** The resources `execute` opens and the order of its close attempts: the
      statement and then the connection are closed on every path that opened
      them, whatever the binding, the executor or the size check did, while
      the result set of a query is never closed explicitly. */
  lemma ExecuteResources<T>(faults: set<Call>, n: nat, parameters: seq<Value>, rows: seq<Row>, ex: Executor<T>)
    ensures GetConnection in faults ==>
      Opened(ExecuteRun(faults, n, parameters, rows, ex).trace) == [] &&
      Closed(ExecuteRun(faults, n, parameters, rows, ex).trace) == []
    ensures GetConnection !in faults && PrepareStatement in faults ==>
      Opened(ExecuteRun(faults, n, parameters, rows, ex).trace) == [Conn(n)] &&
      Closed(ExecuteRun(faults, n, parameters, rows, ex).trace) == [Conn(n)]
    ensures GetConnection !in faults && PrepareStatement !in faults ==>
      Opened(ExecuteRun(faults, n, parameters, rows, ex).trace) ==
        [Conn(n), Stmt(n + 1)] + (if ResultSetOpened(faults, parameters, ex) then [Rs(ExecRsId(faults, n, parameters))] else []) &&
      Closed(ExecuteRun(faults, n, parameters, rows, ex).trace) == [Stmt(n + 1), Conn(n)]
  {
    if GetConnection in faults {
      One(Event(Conn(n), GetConnection, false));
    } else if PrepareStatement in faults {
      PrepareFailedResources(faults, n, parameters, rows, ex);
    } else {
      PreparedResources(faults, n, parameters, rows, ex);
    }
  }

  lemma PrepareFailedResources<T>(faults: set<Call>, n: nat, parameters: seq<Value>, rows: seq<Row>, ex: Executor<T>)
    requires GetConnection !in faults && PrepareStatement in faults
    ensures Opened(ExecuteRun(faults, n, parameters, rows, ex).trace) == [Conn(n)]
    ensures Closed(ExecuteRun(faults, n, parameters, rows, ex).trace) == [Conn(n)]
  {
    var got := Event(Conn(n), GetConnection, true);
    var prep := Event(Stmt(n + 1), PrepareStatement, false);
    var closeC := CloseEvent(faults, Conn(n), ConnectionKind);
    assert ExecuteRun(faults, n, parameters, rows, ex).trace == [got] + [prep] + [closeC];
    One(got);
    One(prep);
    One(closeC);
    Append([got], [prep]);
    Append([got] + [prep], [closeC]);
  }

  /** The connection and the statement, both open and neither closed. */
  lemma OpenedHead(faults: set<Call>, n: nat)
    requires GetConnection !in faults && PrepareStatement !in faults
    ensures Opened(OpenRun(faults, n).trace) == [Conn(n), Stmt(n + 1)]
    ensures Closed(OpenRun(faults, n).trace) == []
  {
    var head := OpenRun(faults, n).trace;
    assert head == [head[0]] + [head[1]];
    One(head[0]);
    One(head[1]);
    Append([head[0]], [head[1]]);
  }

  lemma PreparedResources<T>(faults: set<Call>, n: nat, parameters: seq<Value>, rows: seq<Row>, ex: Executor<T>)
    requires GetConnection !in faults && PrepareStatement !in faults
    ensures Opened(ExecuteRun(faults, n, parameters, rows, ex).trace) ==
      [Conn(n), Stmt(n + 1)] + (if ResultSetOpened(faults, parameters, ex) then [Rs(ExecRsId(faults, n, parameters))] else [])
    ensures Closed(ExecuteRun(faults, n, parameters, rows, ex).trace) == [Stmt(n + 1), Conn(n)]
  {
    var head := OpenRun(faults, n).trace;
    var body := BodyRun(faults, n + 1, n + 2, parameters, rows, ex).trace;
    var tail := [CloseEvent(faults, Stmt(n + 1), StatementKind), CloseEvent(faults, Conn(n), ConnectionKind)];
    assert ExecuteRun(faults, n, parameters, rows, ex).trace == (head + body) + [] + tail;
    OpenedHead(faults, n);
    BodyResources(faults, n, parameters, rows, ex);
    Append(head, body);
    CloseTailShape(head + body, [], tail);
  }

  /** Every resource `execute` opens is closed exactly when no result set was
      opened: the update path and every failing path close properly, a query
      that ran does not. */
  lemma ExecuteLifecycle<T>(faults: set<Call>, n: nat, parameters: seq<Value>, rows: seq<Row>, ex: Executor<T>)
    ensures ProperlyClosed(ExecuteRun(faults, n, parameters, rows, ex).trace) <==> !ResultSetOpened(faults, parameters, ex)
  {
    ExecuteResources(faults, n, parameters, rows, ex);
    ReverseOne(Conn(n));
    ReverseTwo(Conn(n), Stmt(n + 1));
    ReverseThree(Conn(n), Stmt(n + 1), Rs(ExecRsId(faults, n, parameters)));
    if GetConnection !in faults && PrepareStatement !in faults {
      if ResultSetOpened(faults, parameters, ex) {
        assert [Conn(n), Stmt(n + 1)] + [Rs(ExecRsId(faults, n, parameters))] == [Conn(n), Stmt(n + 1), Rs(ExecRsId(faults, n, parameters))];
      } else {
        assert [Conn(n), Stmt(n + 1)] + [] == [Conn(n), Stmt(n + 1)];
      }
    }
  }

  /** The bindings come first: with the statement prepared and every binding
      succeeding, journal entries 2 .. |parameters| + 1 bind parameters[j] at
      index j + 1, and no executeUpdate or executeQuery comes before them. */
  lemma BindsBeforeExecutor<T>(faults: set<Call>, n: nat, parameters: seq<Value>, rows: seq<Row>, ex: Executor<T>)
    requires GetConnection !in faults && PrepareStatement !in faults && BindError(parameters, faults).None?
    ensures var t := ExecuteRun(faults, n, parameters, rows, ex).trace;
      |t| >= |parameters| + 2 &&
      (forall j | 0 <= j < |parameters| :: t[j + 2] == Event(Stmt(n + 1), SetObject(j + 1, parameters[j]), true)) &&
      (forall j | 0 <= j < |parameters| + 2 :: !t[j].call.ExecuteUpdate? && !t[j].call.ExecuteQuery?)
  {
    var s := Stmt(n + 1);
    BindTraceShape(s, parameters, faults);
    var binds := BindTrace(s, parameters, faults);
    var pre := OpenRun(faults, n).trace + binds;
    var t := ExecuteRun(faults, n, parameters, rows, ex).trace;
    PreparedTrace(faults, n, parameters, rows, ex);
    assert |pre| == |parameters| + 2;
    forall j | 0 <= j < |parameters| ensures t[j + 2] == Event(s, SetObject(j + 1, parameters[j]), true) {
      assert t[j + 2] == pre[j + 2] == binds[j];
    }
    forall j | 0 <= j < |parameters| + 2 ensures !t[j].call.ExecuteUpdate? && !t[j].call.ExecuteQuery? {
      assert t[j] == pre[j];
      if j >= 2 {
        assert pre[j] == binds[j - 2];
      }
    }
  }

  /** With the statement prepared and bound, the journal of `execute` is the
      opening, the bindings, and then the executor's calls and the closes. */
  lemma PreparedTrace<T>(faults: set<Call>, n: nat, parameters: seq<Value>, rows: seq<Row>, ex: Executor<T>)
    requires GetConnection !in faults && PrepareStatement !in faults && BindError(parameters, faults).None?
    ensures OpenRun(faults, n).trace + BindTrace(Stmt(n + 1), parameters, faults) <= ExecuteRun(faults, n, parameters, rows, ex).trace
  {
    var body := BodyRun(faults, n + 1, n + 2, parameters, rows, ex);
    var x := ExecutorRun(faults, n + 1, n + 2 + |BindTrace(Stmt(n + 1), parameters, faults)|, rows, ex).trace;
    var closing := CloseBothRun(faults, Stmt(n + 1), Conn(n), body.result).trace;
    assert body.trace == BindTrace(Stmt(n + 1), parameters, faults) + x;
    assert ExecuteRun(faults, n, parameters, rows, ex).trace ==
      OpenRun(faults, n).trace + BindTrace(Stmt(n + 1), parameters, faults) + (x + closing);
  }

  /** An SQLException never leaves `execute` as itself: it is wrapped, and the
      only unwrapped errors are the two size errors of `queryForObject`. */
  lemma ExecuteWrapsSqlException<T>(faults: set<Call>, n: nat, parameters: seq<Value>, rows: seq<Row>, ex: Executor<T>)
    ensures ExecuteRun(faults, n, parameters, rows, ex).result.Err? ==>
      var e := ExecuteRun(faults, n, parameters, rows, ex).result.error;
      (e.Wrapped? && e.cause.SqlException?) || (ex.QuerySingle? && (e == EmptyResult || e.NotSingleResult?))
  {
    if GetConnection !in faults && PrepareStatement !in faults && BindError(parameters, faults).None? {
      BindTraceShape(Stmt(n + 1), parameters, faults);
    }
  }

  /** No driver call of `execute` up to and including the closes throws. */
  predicate DriverQuiet(faults: set<Call>, parameters: seq<Value>)
  {
    GetConnection !in faults && PrepareStatement !in faults &&
    (forall i | 0 <= i < |parameters| :: Bind(parameters, i) !in faults) &&
    Close(StatementKind) !in faults && Close(ConnectionKind) !in faults
  }

  /** `query` lists one mapped element per row, in row order, exactly when no
      driver call and no mapping throws. */
  lemma QueryMapsEveryRow<T>(faults: set<Call>, n: nat, parameters: seq<Value>, rows: seq<Row>, mapper: Row -> Option<T>)
    ensures ExecuteRun(faults, n, parameters, rows, QueryRows(mapper)).result.Ok? <==>
      DriverQuiet(faults, parameters) && ExecuteQuery !in faults && Next !in faults &&
      forall i | 0 <= i < |rows| :: mapper(rows[i]).Some?
    ensures ExecuteRun(faults, n, parameters, rows, QueryRows(mapper)).result.Ok? ==>
      var v := ExecuteRun(faults, n, parameters, rows, QueryRows(mapper)).result.value.items;
      |v| == |rows| && forall i | 0 <= i < |rows| :: mapper(rows[i]) == Some(v[i])
  {
    BindTraceShape(Stmt(n + 1), parameters, faults);
    CollectMapsEveryRow(Rs(ExecRsId(faults, n, parameters)), rows, mapper, faults);
  }

  /** With every driver call and every mapping succeeding, `queryForObject`
      returns the mapped row of a one-row result, fails on an empty result,
      and fails with the row count on a longer one. */
  lemma QueryForObjectExactlyOne<T>(faults: set<Call>, n: nat, parameters: seq<Value>, rows: seq<Row>, mapper: Row -> Option<T>)
    requires DriverQuiet(faults, parameters) && ExecuteQuery !in faults && Next !in faults
    requires forall i | 0 <= i < |rows| :: mapper(rows[i]).Some?
    ensures |rows| == 1 ==> ExecuteRun(faults, n, parameters, rows, QuerySingle(mapper)).result == Ok(Found(mapper(rows[0]).value))
    ensures |rows| == 0 ==> ExecuteRun(faults, n, parameters, rows, QuerySingle(mapper)).result == Err(EmptyResult)
    ensures |rows| >= 2 ==> ExecuteRun(faults, n, parameters, rows, QuerySingle(mapper)).result == Err(NotSingleResult(|rows|))
  {
    BindTraceShape(Stmt(n + 1), parameters, faults);
    CollectMapsEveryRow(Rs(ExecRsId(faults, n, parameters)), rows, mapper, faults);
  }

  /** Whatever happens, a `queryForObject` that succeeds saw exactly one row. */
  lemma QueryForObjectOkOneRow<T>(faults: set<Call>, n: nat, parameters: seq<Value>, rows: seq<Row>, mapper: Row -> Option<T>)
    ensures ExecuteRun(faults, n, parameters, rows, QuerySingle(mapper)).result.Ok? ==>
      |rows| == 1 && mapper(rows[0]) == Some(ExecuteRun(faults, n, parameters, rows, QuerySingle(mapper)).result.value.item)
  {
    CollectMapsEveryRow(Rs(ExecRsId(faults, n, parameters)), rows, mapper, faults);
  }

  class JdbcTemplate {
    const dataSource: DataSource

    constructor (dataSource: DataSource)
      ensures this.dataSource == dataSource
    {
      this.dataSource := dataSource;
    }

    method Update(sql: string, parameters: seq<Value>) returns (r: Result<()>)
      modifies dataSource
      ensures dataSource.trace == old(dataSource.trace) +
        ExecuteRun<()>(dataSource.faults, |old(dataSource.trace)|, parameters, dataSource.rows, UpdateStatement).trace
      ensures r.Ok? <==> ExecuteRun<()>(dataSource.faults, |old(dataSource.trace)|, parameters, dataSource.rows, UpdateStatement).result.Ok?
      ensures r.Err? ==> r.error == ExecuteRun<()>(dataSource.faults, |old(dataSource.trace)|, parameters, dataSource.rows, UpdateStatement).result.error
    {
      var a := Execute<()>(sql, UpdateStatement, parameters);
      r := if a.Err? then Err(a.error) else Ok(());
    }

    method Query<T>(sql: string, mapper: Row -> Option<T>, parameters: seq<Value>) returns (r: Result<seq<T>>)
      modifies dataSource
      ensures dataSource.trace == old(dataSource.trace) +
        ExecuteRun(dataSource.faults, |old(dataSource.trace)|, parameters, dataSource.rows, QueryRows(mapper)).trace
      ensures r.Ok? <==> ExecuteRun(dataSource.faults, |old(dataSource.trace)|, parameters, dataSource.rows, QueryRows(mapper)).result.Ok?
      ensures r.Ok? ==> r.value == ExecuteRun(dataSource.faults, |old(dataSource.trace)|, parameters, dataSource.rows, QueryRows(mapper)).result.value.items
      ensures r.Err? ==> r.error == ExecuteRun(dataSource.faults, |old(dataSource.trace)|, parameters, dataSource.rows, QueryRows(mapper)).result.error
    {
      AnswerShape(dataSource.faults, |dataSource.trace|, parameters, dataSource.rows, QueryRows(mapper));
      var a := Execute(sql, QueryRows(mapper), parameters);
      r := if a.Err? then Err(a.error) else Ok(a.value.items);
    }

    method QueryForObject<T>(sql: string, mapper: Row -> Option<T>, parameters: seq<Value>) returns (r: Result<T>)
      modifies dataSource
      ensures dataSource.trace == old(dataSource.trace) +
        ExecuteRun(dataSource.faults, |old(dataSource.trace)|, parameters, dataSource.rows, QuerySingle(mapper)).trace
      ensures r.Ok? <==> ExecuteRun(dataSource.faults, |old(dataSource.trace)|, parameters, dataSource.rows, QuerySingle(mapper)).result.Ok?
      ensures r.Ok? ==> r.value == ExecuteRun(dataSource.faults, |old(dataSource.trace)|, parameters, dataSource.rows, QuerySingle(mapper)).result.value.item
      ensures r.Err? ==> r.error == ExecuteRun(dataSource.faults, |old(dataSource.trace)|, parameters, dataSource.rows, QuerySingle(mapper)).result.error
    {
      AnswerShape(dataSource.faults, |dataSource.trace|, parameters, dataSource.rows, QuerySingle(mapper));
      var a := Execute(sql, QuerySingle(mapper), parameters);
      r := if a.Err? then Err(a.error) else Ok(a.value.item);
    }

    /** `execute(sql, executor, parameters)`. */
    method Execute<T>(sql: string, ex: Executor<T>, parameters: seq<Value>) returns (r: Result<Answer<T>>)
      modifies dataSource
      ensures dataSource.trace == old(dataSource.trace) + ExecuteRun(dataSource.faults, |old(dataSource.trace)|, parameters, dataSource.rows, ex).trace
      ensures r == ExecuteRun(dataSource.faults, |old(dataSource.trace)|, parameters, dataSource.rows, ex).result
    {
      ghost var n := |dataSource.trace|;
      var started := Open(sql);
      if started.Err? {
        return Err(started.error);
      }
      var (c, statement) := started.value;
      ghost var head := OpenRun(dataSource.faults, n);
      assert head.result.Ok? && |head.trace| == 2;
      var body := ExecuteBody(statement, ex, parameters);
      ghost var run := BodyRun(dataSource.faults, n + 1, n + 2, parameters, dataSource.rows, ex);
      assert dataSource.trace == old(dataSource.trace) + head.trace + run.trace && body == run.result;
      r := CloseBoth(statement, c, body);
    }

    /** The closes of `try (conn; pstmt)`, the statement first. */
    method CloseBoth<U>(statement: PreparedStatement, c: Connection, body: Result<U>) returns (r: Result<U>)
      requires statement.ds == c.ds
      modifies statement, c, c.ds
      ensures c.ds.trace == old(c.ds.trace) + CloseBothRun(c.ds.faults, Stmt(statement.id), Conn(c.id), body).trace
      ensures r == CloseBothRun(c.ds.faults, Stmt(statement.id), Conn(c.id), body).result
      ensures statement.closed == (old(statement.closed) || Call.Close(StatementKind) !in c.ds.faults)
      ensures c.closed == (old(c.closed) || Call.Close(ConnectionKind) !in c.ds.faults)
      ensures c.autoCommit == old(c.autoCommit)
    {
      var pending := ErrOf(body);
      var e := statement.Close();
      pending := Primary(pending, e);
      e := c.Close();
      pending := Primary(pending, e);
      r := if pending.Some? then Err(Wrap(pending.value)) else body;
    }

    /** The resources of the try statement; a statement that cannot be
        prepared closes the connection. */
    method Open(sql: string) returns (r: Result<(Connection, PreparedStatement)>)
      modifies dataSource
      ensures dataSource.trace == old(dataSource.trace) + OpenRun(dataSource.faults, |old(dataSource.trace)|).trace
      ensures r.Err? <==> OpenRun(dataSource.faults, |old(dataSource.trace)|).result.Err?
      ensures r.Err? ==> r.error == OpenRun(dataSource.faults, |old(dataSource.trace)|).result.error
      ensures r.Ok? ==> fresh(r.value.0) && r.value.0.ds == dataSource && r.value.0.id == |old(dataSource.trace)|
      ensures r.Ok? ==> fresh(r.value.1) && r.value.1.ds == dataSource && r.value.1.id == |old(dataSource.trace)| + 1
    {
      var conn := dataSource.GetConnection();
      if conn.Err? {
        return Err(Wrap(conn.error));
      }
      var c := conn.value;
      var prepared := c.PrepareStatement(sql);
      if prepared.Err? {
        var _ := c.Close();
        return Err(Wrap(prepared.error));
      }
      r := Ok((c, prepared.value));
    }

    /** The block of the try statement: bind, then hand the statement to the executor. */
    method ExecuteBody<T>(statement: PreparedStatement, ex: Executor<T>, parameters: seq<Value>) returns (r: Result<Answer<T>>)
      requires statement.ds == dataSource
      modifies statement, dataSource
      ensures dataSource.trace == old(dataSource.trace) +
        BodyRun(dataSource.faults, statement.id, |old(dataSource.trace)|, parameters, dataSource.rows, ex).trace
      ensures r == BodyRun(dataSource.faults, statement.id, |old(dataSource.trace)|, parameters, dataSource.rows, ex).result
      ensures statement.closed == old(statement.closed)
    {
      var e := SetParameters(statement, parameters);
      if e.Some? {
        return Err(e.value);
      }
      r := RunExecutor(statement, ex);
    }

    /** `executor.execute(statement)` for the three lambdas of this template. */
    method RunExecutor<T>(statement: PreparedStatement, ex: Executor<T>) returns (r: Result<Answer<T>>)
      requires statement.ds == dataSource
      modifies dataSource
      ensures dataSource.trace == old(dataSource.trace) +
        ExecutorRun(dataSource.faults, statement.id, |old(dataSource.trace)|, dataSource.rows, ex).trace
      ensures r == ExecutorRun(dataSource.faults, statement.id, |old(dataSource.trace)|, dataSource.rows, ex).result
    {
      match ex
      case UpdateStatement =>
        var e := statement.ExecuteUpdate();
        r := if e.Some? then Err(e.value) else Ok(Updated);
      case QueryRows(mapper) =>
        var results := ExecuteQuery(statement, mapper);
        r := if results.Err? then Err(results.error) else Ok(Listed(results.value));
      case QuerySingle(mapper) =>
        var results := ExecuteQuery(statement, mapper);
        if results.Err? {
          r := Err(results.error);
        } else {
          var single := GetSingleRow(results.value);
          r := if single.Err? then Err(single.error) else Ok(Found(single.value));
        }
    }

    /** `execute(statement, rowMapper)`: the result set is extracted and left open. */
    method ExecuteQuery<T>(statement: PreparedStatement, mapper: Row -> Option<T>) returns (r: Result<seq<T>>)
      requires statement.ds == dataSource
      modifies dataSource
      ensures dataSource.trace == old(dataSource.trace) +
        ExtractRun(dataSource.faults, |old(dataSource.trace)|, dataSource.rows, mapper).trace
      ensures r == ExtractRun(dataSource.faults, |old(dataSource.trace)|, dataSource.rows, mapper).result
    {
      var executed := statement.ExecuteQuery();
      if executed.Err? {
        return Err(executed.error);
      }
      r := ReadAll(executed.value, mapper);
    }
  }
}
