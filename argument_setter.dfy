/** nextstep.jdbc.ArgumentPreparedStatementSetter: binds the argument array
    captured at construction positionally, and binds nothing when that array
    is null. */
module ArgumentSetter {
  import opened Jdbc
  import opened Binding

  class ArgumentPreparedStatementSetter {
    /** The captured arguments; `null` stands for a null array. */
    const args: array?<Value>

    constructor (args: array?<Value>)
      ensures this.args == args
    {
      this.args := args;
    }

    /** `for (i = 0; i < args.length; i++) ps.setObject(i + 1, args[i])`,
        after returning at once on a null array. The array is only read. */
    method SetValues(ps: PreparedStatement) returns (e: Option<Exc>)
      modifies ps, ps.ds
      ensures args == null ==> e.None? && ps.ds.trace == old(ps.ds.trace) && ps.params == old(ps.params)
      ensures args != null ==> ps.ds.trace == old(ps.ds.trace) + BindTrace(Stmt(ps.id), args[..], ps.ds.faults)
      ensures args != null ==> e == BindError(args[..], ps.ds.faults)
      ensures args != null ==> ps.params == old(ps.params) + Params(args[..], FirstBindFailure(args[..], ps.ds.faults))
      ensures ps.closed == old(ps.closed)
    {
      if args == null {
        return None;
      }
      var i := 0;
      while i < args.Length
        invariant 0 <= i <= args.Length
        invariant forall j | 0 <= j < i :: Bind(args[..], j) !in ps.ds.faults
        invariant ps.ds.trace == old(ps.ds.trace) + BoundEvents(Stmt(ps.id), args[..], i)
        invariant ps.params == old(ps.params) + Params(args[..], i)
        invariant ps.closed == old(ps.closed)
      {
        e := ps.SetObject(i + 1, args[i]);
        if e.Some? {
          assert Bind(args[..], i) in ps.ds.faults;
          assert FirstBindFailure(args[..], ps.ds.faults) == i;
          return;
        }
        i := i + 1;
      }
      e := None;
    }
  }
}
