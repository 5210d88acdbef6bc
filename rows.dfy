/** Reading a result set through a row mapper. The mapper is a function of
    the current row; `None` stands for the SQLException a mapper may throw. */
module Rows {
  import opened Jdbc
  import opened Lifecycle

  function FirstMapFailureFrom<T>(rows: seq<Row>, mapper: Row -> Option<T>, from: nat): (k: nat)
    requires from <= |rows|
    ensures from <= k <= |rows|
    ensures forall i | from <= i < k :: mapper(rows[i]).Some?
    ensures k < |rows| ==> mapper(rows[k]).None?
    decreases |rows| - from
  {
    if from == |rows| then from
    else if mapper(rows[from]).None? then from
    else FirstMapFailureFrom(rows, mapper, from + 1)
  }

  /** The index of the first row the mapper fails on (|rows| when none). */
  function FirstMapFailure<T>(rows: seq<Row>, mapper: Row -> Option<T>): (k: nat)
    ensures k <= |rows|
    ensures forall i | 0 <= i < k :: mapper(rows[i]).Some?
    ensures k < |rows| ==> mapper(rows[k]).None?
  {
    FirstMapFailureFrom(rows, mapper, 0)
  }

  /** One mapped element per row, in row order. */
  function MapAll<T>(rows: seq<Row>, mapper: Row -> Option<T>): (r: seq<T>)
    requires forall i | 0 <= i < |rows| :: mapper(rows[i]).Some?
    ensures |r| == |rows|
    ensures forall i | 0 <= i < |rows| :: mapper(rows[i]) == Some(r[i])
    decreases |rows|
  {
    if rows == [] then []
    else MapAll(rows[..|rows| - 1], mapper) + [mapper(rows[|rows| - 1]).value]
  }

  /** Journal entries of k successful calls of next() on result set r. */
  function NextEvents(r: Res, k: nat): seq<Event>
  {
    if k == 0 then [] else NextEvents(r, k - 1) + [Event(r, Next, true)]
  }

  /** The loop `while (rs.next()) result.add(mapper.map(rs))` on result set r. */
  function CollectRun<T>(r: Res, rows: seq<Row>, mapper: Row -> Option<T>, faults: set<Call>): Run<seq<T>>
  {
    if Next in faults then Run([Event(r, Next, false)], Err(SqlException(Next)))
    else
      var k := FirstMapFailure(rows, mapper);
      if k < |rows| then Run(NextEvents(r, k + 1), Err(SqlException(MapRow)))
      else Run(NextEvents(r, |rows| + 1), Ok(MapAll(rows, mapper)))
  }

  /** The test `if (rs.next()) ... mapper.map(rs)`: at most the first row is read. */
  function FirstRowRun<T>(r: Res, rows: seq<Row>, mapper: Row -> Option<T>, faults: set<Call>): Run<Option<T>>
  {
    if Next in faults then Run([Event(r, Next, false)], Err(SqlException(Next)))
    else if rows == [] then Run([Event(r, Next, true)], Ok(None))
    else match mapper(rows[0])
      case None => Run([Event(r, Next, true)], Err(SqlException(MapRow)))
      case Some(v) => Run([Event(r, Next, true)], Ok(Some(v)))
  }

  lemma {:induction false} NextEventsShape(r: Res, k: nat)
    ensures |NextEvents(r, k)| == k
    ensures forall j | 0 <= j < k :: NextEvents(r, k)[j] == Event(r, Next, true)
  {
    if k > 0 {
      NextEventsShape(r, k - 1);
    }
  }

  /** The row loop succeeds exactly when next() and the mapper never throw;
      it then yields one mapped element per row, in row order. It neither
      opens nor closes anything. */
  lemma CollectMapsEveryRow<T>(r: Res, rows: seq<Row>, mapper: Row -> Option<T>, faults: set<Call>)
    ensures CollectRun(r, rows, mapper, faults).result.Ok? <==>
      Next !in faults && forall i | 0 <= i < |rows| :: mapper(rows[i]).Some?
    ensures CollectRun(r, rows, mapper, faults).result.Ok? ==>
      var v := CollectRun(r, rows, mapper, faults).result.value;
      |v| == |rows| && forall i | 0 <= i < |rows| :: mapper(rows[i]) == Some(v[i])
    ensures Quiet(CollectRun(r, rows, mapper, faults).trace)
  {
    var k := FirstMapFailure(rows, mapper);
    NextEventsShape(r, k + 1);
    NextEventsShape(r, |rows| + 1);
  }

  /** The loop calls nothing but `next`. */
  lemma CollectOnlyNext<T>(r: Res, rows: seq<Row>, mapper: Row -> Option<T>, faults: set<Call>)
    ensures forall j | 0 <= j < |CollectRun(r, rows, mapper, faults).trace| ::
      CollectRun(r, rows, mapper, faults).trace[j] == Event(r, Next, Next !in faults)
  {
    NextEventsShape(r, FirstMapFailure(rows, mapper) + 1);
    NextEventsShape(r, |rows| + 1);
  }

  lemma FirstRowQuiet<T>(r: Res, rows: seq<Row>, mapper: Row -> Option<T>, faults: set<Call>)
    ensures Quiet(FirstRowRun(r, rows, mapper, faults).trace)
    ensures |FirstRowRun(r, rows, mapper, faults).trace| == 1
  {
  }

  /** Reads the whole result set: `while (rs.next()) result.add(mapper.map(rs))`. */
  method ReadAll<T>(rs: ResultSet, mapper: Row -> Option<T>) returns (r: Result<seq<T>>)
    requires rs.cursor == 0
    modifies rs, rs.ds
    ensures rs.ds.trace == old(rs.ds.trace) + CollectRun(Rs(rs.id), rs.rows, mapper, rs.ds.faults).trace
    ensures r == CollectRun(Rs(rs.id), rs.rows, mapper, rs.ds.faults).result
    ensures rs.closed == old(rs.closed)
  {
    var result: seq<T> := [];
    var failure: Option<Exc> := None;
    while true
      invariant rs.cursor == |result| <= |rs.rows|
      invariant forall j | 0 <= j < |result| :: mapper(rs.rows[j]) == Some(result[j])
      invariant |result| > 0 ==> Next !in rs.ds.faults
      invariant rs.ds.trace == old(rs.ds.trace) + NextEvents(Rs(rs.id), |result|)
      invariant rs.closed == old(rs.closed)
      decreases |rs.rows| - |result|
    {
      var more := rs.Next();
      if more.Err? {
        return Err(more.error);
      }
      if !more.value {
        assert FirstMapFailure(rs.rows, mapper) == |rs.rows|;
        assert result == MapAll(rs.rows, mapper);
        return Ok(result);
      }
      var m := mapper(rs.rows[rs.cursor - 1]);
      if m.None? {
        assert FirstMapFailure(rs.rows, mapper) == |result|;
        return Err(SqlException(MapRow));
      }
      result := result + [m.value];
    }
  }

  /** Reads at most the first row: `if (rs.next()) return mapper.map(rs)`. */
  method ReadFirst<T>(rs: ResultSet, mapper: Row -> Option<T>) returns (r: Result<Option<T>>)
    requires rs.cursor == 0
    modifies rs, rs.ds
    ensures rs.ds.trace == old(rs.ds.trace) + FirstRowRun(Rs(rs.id), rs.rows, mapper, rs.ds.faults).trace
    ensures r == FirstRowRun(Rs(rs.id), rs.rows, mapper, rs.ds.faults).result
    ensures rs.closed == old(rs.closed)
  {
    var more := rs.Next();
    if more.Err? {
      return Err(more.error);
    }
    if !more.value {
      return Ok(None);
    }
    var m := mapper(rs.rows[rs.cursor - 1]);
    if m.None? {
      return Err(SqlException(MapRow));
    }
    return Ok(Some(m.value));
  }
}
