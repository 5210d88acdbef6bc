/** nextstep.jdbc.StatementCallback: holds one prepared statement, binds a
    nullable argument list to it positionally, and closes it.

    Its close is guarded by `pstmt != null || !pstmt.isClosed()`. The
    disjunction is true for every non-null statement, so a statement that is
    already closed is closed again, and for a null statement the right-hand
    side dereferences null. The guard evidently meant `&&`: close an open,
    non-null statement and otherwise do nothing. Both are modelled below. */
module StatementCallbackModel {
  import opened Jdbc
  import opened Binding

  /** What a close guard decides for a statement that is null or not, and
      closed or not. */
  datatype CloseDecision = CloseIt | Skip | Dereference

  /** `if (pstmt != null || !pstmt.isClosed()) pstmt.close();` with Java's
      short-circuit `||`: the right operand is evaluated only for a null
      statement, where it throws. */
  function GuardAsWritten(isNull: bool, isClosed: bool): CloseDecision
  {
    if !isNull then CloseIt
    else Dereference
  }

  /** The guard with `&&`: only an open, non-null statement is closed. */
  function GuardIntended(isNull: bool, isClosed: bool): CloseDecision
  {
    if !isNull && !isClosed then CloseIt else Skip
  }

  /** The guard as written closes every non-null statement, closed or not,
      and dereferences null for a null one: no input lets it skip. */
  lemma GuardAsWrittenNeverSkips(isNull: bool, isClosed: bool)
    ensures GuardAsWritten(isNull, isClosed) != Skip
    ensures GuardAsWritten(isNull, isClosed) == CloseIt <==> !isNull
    ensures GuardAsWritten(isNull, isClosed) == Dereference <==> isNull
  {
  }

  /** The two inputs on which the guard as written departs from the intended
      one: a null statement, and a non-null statement already closed. */
  lemma GuardCounterexamples()
    ensures GuardAsWritten(true, false) == Dereference && GuardIntended(true, false) == Skip
    ensures GuardAsWritten(false, true) == CloseIt && GuardIntended(false, true) == Skip
  {
  }

  /** The intended guard never dereferences null, closes exactly an open
      non-null statement, and agrees with the written one on that case. */
  lemma GuardIntendedSafe(isNull: bool, isClosed: bool)
    ensures GuardIntended(isNull, isClosed) != Dereference
    ensures GuardIntended(isNull, isClosed) == CloseIt <==> !isNull && !isClosed
    ensures !isNull && !isClosed ==> GuardIntended(isNull, isClosed) == GuardAsWritten(isNull, isClosed)
  {
  }

  class StatementCallback {
    /** The statement given to the constructor; the class never reassigns it. */
    const pstmt: PreparedStatement?

    constructor (pstmt: PreparedStatement?)
      ensures this.pstmt == pstmt
    {
      this.pstmt := pstmt;
    }

    /** What the methods of this object may change. */
    ghost function Footprint(): set<object>
    {
      if pstmt == null then {} else {pstmt, pstmt.ds}
    }

    /** `getPstmt()`. */
    function GetPstmt(): (p: PreparedStatement?)
      ensures p == pstmt
    {
      pstmt
    }

    /** `setPreparedSql(objects)`: nothing for a null argument list, else
        `pstmt.setObject(index + 1, objects[index])` for each index in
        ascending order; a throwing setObject ends the loop, and the wrapper
        around the lambda rethrows it unchecked. With a null statement the
        first setObject dereferences null. */
    method SetPreparedSql(objects: Option<seq<Value>>) returns (e: Option<Exc>)
      modifies Footprint()
      ensures objects.None? ==> e.None?
      ensures objects.None? && pstmt != null ==> pstmt.ds.trace == old(pstmt.ds.trace) && pstmt.params == old(pstmt.params)
      ensures objects.Some? && pstmt == null ==> e == (if objects.value == [] then None else Some(NullPointer))
      ensures objects.Some? && pstmt != null ==>
        pstmt.ds.trace == old(pstmt.ds.trace) + BindTrace(Stmt(pstmt.id), objects.value, pstmt.ds.faults) &&
        pstmt.params == old(pstmt.params) + Params(objects.value, FirstBindFailure(objects.value, pstmt.ds.faults)) &&
        e == (var b := BindError(objects.value, pstmt.ds.faults); if b.Some? then Some(Wrapped(b.value)) else None)
      ensures pstmt != null ==> pstmt.closed == old(pstmt.closed)
    {
      if objects.None? {
        return None;
      }
      if pstmt == null {
        return if objects.value == [] then None else Some(NullPointer);
      }
      var thrown := SetParameters(pstmt, objects.value);
      e := if thrown.Some? then Some(Wrapped(thrown.value)) else None;
    }

    /** `close()` as written: every non-null statement is closed, even one
        already closed, and a null statement throws. */
    method CloseAsWritten() returns (e: Option<Exc>)
      modifies Footprint()
      ensures pstmt == null ==> e == Some(NullPointer)
      ensures pstmt != null ==>
        pstmt.ds.trace == old(pstmt.ds.trace) + [CloseEvent(pstmt.ds.faults, Stmt(pstmt.id), StatementKind)] &&
        e == Thrown(pstmt.ds.faults, Call.Close(StatementKind)) &&
        pstmt.closed == (old(pstmt.closed) || e.None?)
    {
      var decision := GuardAsWritten(pstmt == null, pstmt != null && pstmt.closed);
      if decision == CloseIt {
        e := pstmt.Close();
      } else if decision == Dereference {
        e := Some(NullPointer);
      } else {
        e := None;
      }
    }

    /** `close()` with the guard `pstmt != null && !pstmt.isClosed()`: an
        open statement is closed once, and a null or closed one is left
        alone without an error. */
    method Close() returns (e: Option<Exc>)
      modifies Footprint()
      ensures pstmt == null ==> e.None?
      ensures pstmt != null && old(pstmt.closed) ==> e.None? && pstmt.ds.trace == old(pstmt.ds.trace) && pstmt.closed
      ensures pstmt != null && !old(pstmt.closed) ==>
        pstmt.ds.trace == old(pstmt.ds.trace) + [CloseEvent(pstmt.ds.faults, Stmt(pstmt.id), StatementKind)] &&
        e == Thrown(pstmt.ds.faults, Call.Close(StatementKind)) &&
        pstmt.closed == e.None?
    {
      var decision := GuardIntended(pstmt == null, pstmt != null && pstmt.closed);
      if decision == CloseIt {
        e := pstmt.Close();
      } else if decision == Dereference {
        e := Some(NullPointer);
      } else {
        e := None;
      }
    }
  }
}
