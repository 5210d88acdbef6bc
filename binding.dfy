/** Positional parameter binding: the i-th value (0-based) goes to JDBC
    parameter index i + 1, in ascending order, and a binding that throws ends
    the loop. */
module Binding {
  import opened Jdbc
  import opened Lifecycle

  /** The setObject call that binds the i-th value. */
  function Bind(values: seq<Value>, i: nat): Call
    requires i < |values|
  {
    SetObject(i + 1, values[i])
  }

  function FirstBindFailureFrom(values: seq<Value>, faults: set<Call>, from: nat): (k: nat)
    requires from <= |values|
    ensures from <= k <= |values|
    ensures forall i | from <= i < k :: Bind(values, i) !in faults
    ensures k < |values| ==> Bind(values, k) in faults
    decreases |values| - from
  {
    if from == |values| then from
    else if Bind(values, from) in faults then from
    else FirstBindFailureFrom(values, faults, from + 1)
  }

  /** How many values bind before the first binding that throws (all of them
      when none throws). */
  function FirstBindFailure(values: seq<Value>, faults: set<Call>): (k: nat)
    ensures k <= |values|
    ensures forall i | 0 <= i < k :: Bind(values, i) !in faults
    ensures k < |values| ==> Bind(values, k) in faults
  {
    FirstBindFailureFrom(values, faults, 0)
  }

  /** Journal entries of the first k bindings on statement s, all succeeding. */
  function BoundEvents(s: Res, values: seq<Value>, k: nat): seq<Event>
    requires k <= |values|
  {
    if k == 0 then [] else BoundEvents(s, values, k - 1) + [Event(s, Bind(values, k - 1), true)]
  }

  /** Journal entries of the whole binding loop on statement s. */
  function BindTrace(s: Res, values: seq<Value>, faults: set<Call>): seq<Event>
  {
    var k := FirstBindFailure(values, faults);
    BoundEvents(s, values, k) + (if k < |values| then [Event(s, Bind(values, k), false)] else [])
  }

  /** What the binding loop throws, if anything. */
  function BindError(values: seq<Value>, faults: set<Call>): Option<Exc>
  {
    var k := FirstBindFailure(values, faults);
    if k < |values| then Some(SqlException(Bind(values, k))) else None
  }

  /** The parameters that the first k bindings set. */
  function Params(values: seq<Value>, k: nat): map<nat, Value>
    requires k <= |values|
  {
    if k == 0 then map[] else Params(values, k - 1)[k := values[k - 1]]
  }

  /** The first k bindings set parameter i + 1 to values[i] for each i < k and
      set no other parameter index. */
  lemma {:induction false} ParamsPositional(values: seq<Value>, k: nat)
    requires k <= |values|
    ensures forall i: nat :: i in Params(values, k) <==> 1 <= i <= k
    ensures forall i | 0 <= i < k :: Params(values, k)[i + 1] == values[i]
  {
    if k > 0 {
      ParamsPositional(values, k - 1);
    }
  }

  /** The successful bindings: k calls, the j-th binding values[j] at index j + 1. */
  lemma {:induction false} BoundEventsShape(s: Res, values: seq<Value>, k: nat)
    requires k <= |values|
    ensures |BoundEvents(s, values, k)| == k
    ensures forall j | 0 <= j < k :: BoundEvents(s, values, k)[j] == Event(s, SetObject(j + 1, values[j]), true)
  {
    if k > 0 {
      BoundEventsShape(s, values, k - 1);
    }
  }

  /** The binding loop neither opens nor closes anything. */
  lemma BindTraceQuiet(s: Res, values: seq<Value>, faults: set<Call>)
    ensures Quiet(BindTrace(s, values, faults))
  {
    var k := FirstBindFailure(values, faults);
    BoundEventsShape(s, values, k);
  }

  /** With no failure the loop makes exactly |values| setObject calls, in
      ascending index order, and nothing else; otherwise it stops at the first
      one that throws, and that is the error it reports. */
  lemma BindTraceShape(s: Res, values: seq<Value>, faults: set<Call>)
    ensures BindError(values, faults).None? <==> forall i | 0 <= i < |values| :: Bind(values, i) !in faults
    ensures BindError(values, faults).None? ==>
      |BindTrace(s, values, faults)| == |values| &&
      forall j | 0 <= j < |values| :: BindTrace(s, values, faults)[j] == Event(s, SetObject(j + 1, values[j]), true)
    ensures BindError(values, faults).Some? ==>
      var k := FirstBindFailure(values, faults);
      |BindTrace(s, values, faults)| == k + 1 &&
      BindTrace(s, values, faults)[k] == Event(s, SetObject(k + 1, values[k]), false) &&
      BindError(values, faults) == Some(SqlException(SetObject(k + 1, values[k])))
  {
    var k := FirstBindFailure(values, faults);
    BoundEventsShape(s, values, k);
    if k < |values| {
      assert BindTrace(s, values, faults)[k] == Event(s, SetObject(k + 1, values[k]), false);
    } else {
      assert BindTrace(s, values, faults) == BoundEvents(s, values, k);
    }
  }

  /** Every entry of the binding loop is a setObject call on s. */
  lemma BindTraceOnlyBinds(s: Res, values: seq<Value>, faults: set<Call>)
    ensures forall j | 0 <= j < |BindTrace(s, values, faults)| ::
      BindTrace(s, values, faults)[j].on == s && BindTrace(s, values, faults)[j].call.SetObject?
  {
    var k := FirstBindFailure(values, faults);
    BoundEventsShape(s, values, k);
  }

  /** The loop `for (i = 0; i < values.length; i++) pstmt.setObject(i + 1, values[i])`. */
  method SetParameters(pstmt: PreparedStatement, values: seq<Value>) returns (e: Option<Exc>)
    modifies pstmt, pstmt.ds
    ensures pstmt.ds.trace == old(pstmt.ds.trace) + BindTrace(Stmt(pstmt.id), values, pstmt.ds.faults)
    ensures e == BindError(values, pstmt.ds.faults)
    ensures pstmt.params == old(pstmt.params) + Params(values, FirstBindFailure(values, pstmt.ds.faults))
    ensures pstmt.closed == old(pstmt.closed)
  {
    var i := 0;
    while i < |values|
      invariant 0 <= i <= |values|
      invariant forall j | 0 <= j < i :: Bind(values, j) !in pstmt.ds.faults
      invariant pstmt.ds.trace == old(pstmt.ds.trace) + BoundEvents(Stmt(pstmt.id), values, i)
      invariant pstmt.params == old(pstmt.params) + Params(values, i)
      invariant pstmt.closed == old(pstmt.closed)
    {
      e := pstmt.SetObject(i + 1, values[i]);
      if e.Some? {
        assert Bind(values, i) in pstmt.ds.faults;
        assert FirstBindFailure(values, pstmt.ds.faults) == i;
        return;
      }
      i := i + 1;
    }
    e := None;
  }
}
