# JDBC resource and transaction logic of jwp-dashboard-jdbc, in Dafny

This project models the part of the repository that opens, uses and closes
JDBC resources and that drives transactions by hand. Its pieces are:

- three variants of `JdbcTemplate`:
  - `org.springframework.jdbc.core`: try-with-resources, with every
    `SQLException` turned into a `DataAccessException`;
  - `nextstep.jdbc`: one `execute` taking an executor lambda, with
    `SQLException` wrapped in a `RuntimeException` and an exactly-one-row
    rule;
  - `com.techcourse.dao`: resources obtained before the `try`, and nothing
    translated;
- the parameter setters `ArgumentPreparedStatementSetter` and
  `StatementCallback`;
- the connection registry `DataSourceUtils`;
- the transaction drivers `TransactionExecutor` and
  `DataSourceTransactionManager`;
- `UserService.changePassword`.

JDBC is modelled abstractly, in `jdbc.dfy`:

- A `DataSource` carries a fault plan: the set of driver-call shapes that
  throw `SQLException`.
- It also carries the rows every query answers with, the caller tasks that
  throw an unchecked exception, and one journal of every driver call with
  its outcome.
- A connection, statement or result set is named by the journal position of
  the call that opened it.

Each imperative operation is a method on a class. Its contract ties the
journal it appends and its result to a pure function of the fault plan (a
`...Run` function). The lemmas about these functions state what the source
promises:

- which resources are opened and closed, and in which order;
- which exception leaves, and when;
- what is bound, mapped or returned.

`Lifecycle.ProperlyClosed` says that the close attempts are exactly the
opened resources in reverse order of opening. This is the closing order of a
try-with-resources statement in section 14.20.3 of the Java Language
Specification. A close that throws there is suppressed while an exception is
pending (`Jdbc.Primary`). An exception thrown in a `finally` block replaces
the pending one.

Three behaviours of the code are modelled as written and proved as such:

- In the `org.springframework.jdbc.core` template, the statement is bound
  inside the resource initialiser. A throwing `setObject` therefore leaves
  the prepared statement unclosed (`CoreJdbcTemplate.BindLeaks`).
- The `nextstep.jdbc` template never explicitly closes the result set its
  queries open.
- The `com.techcourse.dao` template leaves open whatever it acquired before
  the `try` when a later step before the `try` throws.

## Model

| member | source | states |
|---|---|---|
| Binding.SetParameters | jdbc/src/main/java/org/springframework/jdbc/core/JdbcTemplate.java:77-81 | calls `setObject(i + 1, values[i])` in ascending order and stops at the first call that throws, returning its SQLException; the statement's parameters gain exactly indices 1..k with the values bound, and nothing else changes |
| Binding.ParamsPositional | jdbc/src/main/java/org/springframework/jdbc/core/JdbcTemplate.java:77-81 | after k bindings, exactly the indices 1..k are set, and index i + 1 holds values[i] |
| Binding.BindTraceShape | jdbc/src/main/java/org/springframework/jdbc/core/JdbcTemplate.java:77-81 | the loop succeeds iff no binding is faulty; then it makes exactly one successful call per value, in order; otherwise the first faulty binding is its last call and is the error reported |
| Binding.BindTraceOnlyBinds | jdbc/src/main/java/org/springframework/jdbc/core/JdbcTemplate.java:78-80 | every call the loop makes is a `setObject` on the statement |
| Binding.FirstBindFailure | jdbc/src/main/java/org/springframework/jdbc/core/JdbcTemplate.java:78-80 | the index of the first binding that throws: all earlier bindings succeed, and it throws whenever it is less than the number of values |
| Rows.ReadAll | jdbc/src/main/java/org/springframework/jdbc/core/JdbcTemplate.java:43-47 | the `while (rs.next())` loop appends exactly the journal and result of the row-loop function and leaves the result set open |
| Rows.CollectMapsEveryRow | jdbc/src/main/java/org/springframework/jdbc/core/JdbcTemplate.java:43-47 | the row loop succeeds iff `next()` and the mapper never throw; it then yields exactly one mapped element per row, in row order; it opens and closes nothing |
| Rows.CollectOnlyNext | jdbc/src/main/java/org/springframework/jdbc/core/JdbcTemplate.java:44-46 | the row loop calls nothing but `next()` on its result set; since a call shape in the fault plan throws whenever it is made, every such call has the same outcome |
| Rows.MapAll | jdbc/src/main/java/org/springframework/jdbc/core/JdbcTemplate.java:43-47 | one element per row, the i-th the mapped i-th row |
| Rows.ReadFirst | jdbc/src/main/java/org/springframework/jdbc/core/JdbcTemplate.java:60-63 | `if (rs.next())` reads at most the first row; the result set stays open |
| Rows.FirstRowQuiet | jdbc/src/main/java/org/springframework/jdbc/core/JdbcTemplate.java:60-63 | the first-row test makes exactly one call and opens or closes nothing |
| CoreJdbcTemplate.Translate | jdbc/src/main/java/org/springframework/jdbc/core/JdbcTemplate.java:31-34 | an SQLException becomes a DataAccessException wrapping it; anything else is unchanged |
| CoreJdbcTemplate.JdbcTemplate.Update | jdbc/src/main/java/org/springframework/jdbc/core/JdbcTemplate.java:25-35 | appends exactly the journal of `UpdateRun` and returns its result |
| CoreJdbcTemplate.JdbcTemplate.Query | jdbc/src/main/java/org/springframework/jdbc/core/JdbcTemplate.java:37-52 | appends exactly the journal of `QueryRun` over the data source's rows and returns its result |
| CoreJdbcTemplate.JdbcTemplate.QueryForObject | jdbc/src/main/java/org/springframework/jdbc/core/JdbcTemplate.java:54-68 | appends exactly the journal of `QueryForObjectRun` and returns its result |
| CoreJdbcTemplate.JdbcTemplate.GetPreparedStatement | jdbc/src/main/java/org/springframework/jdbc/core/JdbcTemplate.java:70-75 | prepares and binds; on success it returns a fresh open statement for the query text, with parameters 1..n bound to the columns; on failure it returns the failing call's error |
| CoreJdbcTemplate.JdbcTemplate.CloseAll | jdbc/src/main/java/org/springframework/jdbc/core/JdbcTemplate.java:38-42 | closes the result set, then the statement, then the connection, and returns what `CloseAllRun` says; each resource ends closed unless its close throws, and the connection's auto-commit mode is untouched |
| CoreJdbcTemplate.JdbcTemplate.Open | jdbc/src/main/java/org/springframework/jdbc/core/JdbcTemplate.java:26-28 | appends exactly the journal of `OpenRun` and hands back a fresh connection and a fresh statement of this data source, or the translated exception after closing the connection alone |
| CoreJdbcTemplate.JdbcTemplate.OpenSelect | jdbc/src/main/java/org/springframework/jdbc/core/JdbcTemplate.java:38-41 | appends exactly the journal of `SelectOpenRun`; on success the result set is fresh, unread and over the data source's rows; a failing `executeQuery` closes the statement, then the connection |
| CoreJdbcTemplate.PrepareShape | jdbc/src/main/java/org/springframework/jdbc/core/JdbcTemplate.java:70-75 | producing the statement opens it iff `prepareStatement` succeeds and closes nothing; it succeeds iff preparing and every binding succeed |
| CoreJdbcTemplate.UpdateResources | jdbc/src/main/java/org/springframework/jdbc/core/JdbcTemplate.java:26-29 | what `update` opens and closes on each path: nothing; the connection only; the connection while the bound-failed statement leaks; or the statement and then the connection |
| CoreJdbcTemplate.OpenResources | jdbc/src/main/java/org/springframework/jdbc/core/JdbcTemplate.java:26-28 | the first two resources: nothing opened when `getConnection` throws; the connection opened and closed when `prepareStatement` throws; both opened and only the connection closed when a binding throws; both opened and neither closed otherwise |
| CoreJdbcTemplate.UpdateLifecycle | jdbc/src/main/java/org/springframework/jdbc/core/JdbcTemplate.java:26-29 | `update` closes exactly what it opened, last opened first, iff it is not the binding leak |
| CoreJdbcTemplate.UpdateOutcome | jdbc/src/main/java/org/springframework/jdbc/core/JdbcTemplate.java:25-34 | `update` succeeds iff none of its driver calls throws; every error is a DataAccessException wrapping an SQLException; a failing `executeUpdate` is reported even when the closes also throw |
| CoreJdbcTemplate.UpdateExecutesOnce | jdbc/src/main/java/org/springframework/jdbc/core/JdbcTemplate.java:25-30 | once reached, `executeUpdate` runs exactly once, right after the bindings of columns[j] at j + 1; when it is not reached it never runs |
| CoreJdbcTemplate.UpdateReachedTrace | jdbc/src/main/java/org/springframework/jdbc/core/JdbcTemplate.java:26-30 | once every binding succeeded, the journal is the connection, the statement, the bindings of columns[j] at index j + 1, one `executeUpdate`, then the two closes |
| CoreJdbcTemplate.UpdateBindFailureTrace | jdbc/src/main/java/org/springframework/jdbc/core/JdbcTemplate.java:28-30 | when a binding throws, `executeUpdate` is never called |
| CoreJdbcTemplate.SelectResources | jdbc/src/main/java/org/springframework/jdbc/core/JdbcTemplate.java:38-42 | what a query opens and closes on every path; once the result set exists, the closes are result set, statement, connection |
| CoreJdbcTemplate.SelectLifecycle | jdbc/src/main/java/org/springframework/jdbc/core/JdbcTemplate.java:55-59 | a query closes exactly what it opened, in reverse order, iff it is not the binding leak |
| CoreJdbcTemplate.SelectOutcome | jdbc/src/main/java/org/springframework/jdbc/core/JdbcTemplate.java:48-51 | a query succeeds iff every driver call and the body succeed, and then returns the body's value; SQL failures surface as DataAccessException; a body error wins over close errors |
| CoreJdbcTemplate.QueryMapsEveryRow | jdbc/src/main/java/org/springframework/jdbc/core/JdbcTemplate.java:37-52 | `query` succeeds iff no driver call and no mapping throws; it then returns one mapped element per row, in row order; every error is a translated SQLException; it closes properly iff it is not the binding leak |
| CoreJdbcTemplate.QueryForObjectFirstRow | jdbc/src/main/java/org/springframework/jdbc/core/JdbcTemplate.java:54-68 | `queryForObject` yields `Optional.of` the mapped first row when there is a row and `Optional.empty()` when there is none; its errors are translated SQLExceptions; it closes properly iff it is not the binding leak |
| CoreJdbcTemplate.QueryForObjectIgnoresLaterRows | jdbc/src/main/java/org/springframework/jdbc/core/JdbcTemplate.java:60-62 | two results that agree on their first row (or are both empty) give the same journal and value |
| NextstepJdbcTemplate.Wrap | jdbc/src/main/java/nextstep/jdbc/JdbcTemplate.java:44-47 | an SQLException becomes a RuntimeException wrapping it; anything else is unchanged |
| NextstepJdbcTemplate.ValidateExecuteResultSize | jdbc/src/main/java/nextstep/jdbc/JdbcTemplate.java:68-75 | no error iff the list has exactly one element |
| NextstepJdbcTemplate.GetSingleRow | jdbc/src/main/java/nextstep/jdbc/JdbcTemplate.java:62-66 | returns the element of a one-element list; an empty list gives the empty-result error; two or more give the error carrying the count |
| NextstepJdbcTemplate.JdbcTemplate.Update | jdbc/src/main/java/nextstep/jdbc/JdbcTemplate.java:24-26 | `execute` with the `executeUpdate` lambda: the same journal and the same success or error |
| NextstepJdbcTemplate.JdbcTemplate.Query | jdbc/src/main/java/nextstep/jdbc/JdbcTemplate.java:28-30 | `execute` with the row-list lambda: the same journal, and the listed items or the error |
| NextstepJdbcTemplate.JdbcTemplate.QueryForObject | jdbc/src/main/java/nextstep/jdbc/JdbcTemplate.java:32-34 | `execute` with the single-row lambda: the same journal, and the found item or the error |
| NextstepJdbcTemplate.JdbcTemplate.Execute | jdbc/src/main/java/nextstep/jdbc/JdbcTemplate.java:36-48 | appends exactly the journal of `ExecuteRun` and returns its result |
| NextstepJdbcTemplate.JdbcTemplate.Open | jdbc/src/main/java/nextstep/jdbc/JdbcTemplate.java:37-38 | appends exactly the journal of `OpenRun` and hands back a fresh connection and a fresh statement, or the wrapped exception after closing the connection when `prepareStatement` throws |
| NextstepJdbcTemplate.JdbcTemplate.CloseBoth | jdbc/src/main/java/nextstep/jdbc/JdbcTemplate.java:37-38 | closes the statement, then the connection, each close exception suppressed by one already pending, and wraps what remains pending; each ends closed unless its close throws |
| NextstepJdbcTemplate.JdbcTemplate.ExecuteBody | jdbc/src/main/java/nextstep/jdbc/JdbcTemplate.java:39-43 | binds the parameters, then runs the executor only if every binding succeeded, as `BodyRun` |
| NextstepJdbcTemplate.JdbcTemplate.RunExecutor | jdbc/src/main/java/nextstep/jdbc/JdbcTemplate.java:24-34 | the three lambdas as `ExecutorRun`: `executeUpdate`; the row list; the row list through `getSingleRow` |
| NextstepJdbcTemplate.JdbcTemplate.ExecuteQuery | jdbc/src/main/java/nextstep/jdbc/JdbcTemplate.java:56-60 | `executeQuery`, then every row extracted, with the result set left open, as `ExtractRun` |
| NextstepJdbcTemplate.AnswerShape | jdbc/src/main/java/nextstep/jdbc/JdbcTemplate.java:24-34 | a successful `execute` answers in the chosen executor's shape |
| NextstepJdbcTemplate.ExecutorResources | jdbc/src/main/java/nextstep/jdbc/JdbcTemplate.java:56-60 | an executor opens a result set iff it is a query whose `executeQuery` succeeds; it closes nothing and binds nothing |
| NextstepJdbcTemplate.ExtractResources | jdbc/src/main/java/nextstep/jdbc/JdbcTemplate.java:56-60 | running a query opens its result set iff `executeQuery` succeeds, closes nothing and binds nothing |
| NextstepJdbcTemplate.ExecuteResources | jdbc/src/main/java/nextstep/jdbc/JdbcTemplate.java:37-38 | once opened, the statement and then the connection are closed on every path, whatever the binding, the executor or the size check did; the result set that a query opens is never closed explicitly |
| NextstepJdbcTemplate.OpenedHead | jdbc/src/main/java/nextstep/jdbc/JdbcTemplate.java:37-38 | when both resources are obtained, the connection and the statement are open, in that order, and nothing is closed |
| NextstepJdbcTemplate.ExecuteLifecycle | jdbc/src/main/java/nextstep/jdbc/JdbcTemplate.java:37-38 | `execute` closes exactly what it opened, in reverse order, iff no result set was opened |
| NextstepJdbcTemplate.BindsBeforeExecutor | jdbc/src/main/java/nextstep/jdbc/JdbcTemplate.java:39-43 | parameters[j] is bound at index j + 1 in journal order, and no `executeUpdate` or `executeQuery` comes before the bindings |
| NextstepJdbcTemplate.PreparedTrace | jdbc/src/main/java/nextstep/jdbc/JdbcTemplate.java:37-43 | with the statement prepared and bound, the journal starts with the two openings followed by the bindings |
| NextstepJdbcTemplate.ExecuteWrapsSqlException | jdbc/src/main/java/nextstep/jdbc/JdbcTemplate.java:44-47 | every error is a RuntimeException wrapping an SQLException; the only exceptions are the two size errors of `queryForObject` |
| NextstepJdbcTemplate.QueryMapsEveryRow | jdbc/src/main/java/nextstep/jdbc/JdbcTemplate.java:56-60 | `query` succeeds iff no driver call and no mapping throws, and then lists one mapped element per row, in row order |
| NextstepJdbcTemplate.QueryForObjectExactlyOne | jdbc/src/main/java/nextstep/jdbc/JdbcTemplate.java:62-75 | if nothing throws: one row gives its mapped value, no row gives the empty-result error, and two or more give the error carrying the count |
| NextstepJdbcTemplate.QueryForObjectOkOneRow | jdbc/src/main/java/nextstep/jdbc/JdbcTemplate.java:62-66 | a successful `queryForObject` saw exactly one row and returns its mapped value |
| DaoJdbcTemplate.JdbcTemplate.Update | app/src/main/java/com/techcourse/dao/JdbcTemplate.java:23-32 | appends exactly the journal of `UpdateRun` and returns its result |
| DaoJdbcTemplate.JdbcTemplate.QueryForObject | app/src/main/java/com/techcourse/dao/JdbcTemplate.java:38-52 | appends exactly the journal of `QueryForObjectRun` and returns its result |
| DaoJdbcTemplate.JdbcTemplate.Query | app/src/main/java/com/techcourse/dao/JdbcTemplate.java:54-70 | appends exactly the journal of `QueryRun` and returns its result |
| DaoJdbcTemplate.JdbcTemplate.ReadFirstAsList | app/src/main/java/com/techcourse/dao/JdbcTemplate.java:65-68 | `if (rs.next()) results.add(...)`, as `FirstAsListRun` |
| DaoJdbcTemplate.JdbcTemplate.Prepare | app/src/main/java/com/techcourse/dao/JdbcTemplate.java:24-25 | `getConnection()` then `prepareStatement(sql)`: fresh resources of this data source, or the first SQLException with nothing closed |
| DaoJdbcTemplate.JdbcTemplate.Execute | app/src/main/java/com/techcourse/dao/JdbcTemplate.java:29-30 | the setter binds, then `executeUpdate` runs only if every binding succeeded, as `UpdateBodyRun` |
| DaoJdbcTemplate.JdbcTemplate.OpenSelect | app/src/main/java/com/techcourse/dao/JdbcTemplate.java:39-42 | appends exactly the journal of `SelectOpenRun`; on success the result set is fresh, unread and over the data source's rows; a failure closes nothing |
| DaoJdbcTemplate.JdbcTemplate.CloseAll | app/src/main/java/com/techcourse/dao/JdbcTemplate.java:44 | the closes of `try (conn; pstmt; rs)`: result set, statement, connection, as `CloseAllRun`; each ends closed unless its close throws |
| DaoJdbcTemplate.UpdateResources | app/src/main/java/com/techcourse/dao/JdbcTemplate.java:24-27 | if `prepareStatement` throws, the connection is opened and never closed; once the statement exists, the statement and then the connection are closed |
| DaoJdbcTemplate.UpdateLifecycle | app/src/main/java/com/techcourse/dao/JdbcTemplate.java:24-27 | `update` closes properly iff it is not the case that the connection was obtained and `prepareStatement` threw |
| DaoJdbcTemplate.SelectResources | app/src/main/java/com/techcourse/dao/JdbcTemplate.java:39-44 | a query that fails before its `try` closes nothing, leaving open what it had opened; once the `try` is reached, all three resources are closed, last opened first |
| DaoJdbcTemplate.SelectLifecycle | app/src/main/java/com/techcourse/dao/JdbcTemplate.java:57-62 | a query closes properly iff the connection was never obtained or the `try` was reached |
| DaoJdbcTemplate.UpdateUntranslated | app/src/main/java/com/techcourse/dao/JdbcTemplate.java:23-32 | `update` fails only with an untranslated SQLException, and it succeeds iff none of its driver calls throws |
| DaoJdbcTemplate.QueryForObjectFirstRow | app/src/main/java/com/techcourse/dao/JdbcTemplate.java:47-50 | returns the mapped first row, or null when there are no rows; it succeeds iff every call succeeds; its errors are untranslated SQLExceptions |
| DaoJdbcTemplate.QueryAtMostOne | app/src/main/java/com/techcourse/dao/JdbcTemplate.java:65-68 | `query` returns at most one element: the mapped first row when there is one, and an empty list when there are no rows; its errors are untranslated SQLExceptions |
| ArgumentSetter.ArgumentPreparedStatementSetter.constructor | jdbc/src/main/java/nextstep/jdbc/ArgumentPreparedStatementSetter.java:11-13 | captures the argument array, which later calls only read |
| ArgumentSetter.ArgumentPreparedStatementSetter.SetValues | jdbc/src/main/java/nextstep/jdbc/ArgumentPreparedStatementSetter.java:15-23 | a null array changes nothing; otherwise it makes the `setObject(i + 1, args[i])` calls in ascending order up to the first that throws, and sets exactly those parameters; the array is outside its frame |
| StatementCallbackModel.StatementCallback.constructor | jdbc/src/main/java/nextstep/jdbc/StatementCallback.java:14-16 | holds the given statement |
| StatementCallbackModel.StatementCallback.GetPstmt | jdbc/src/main/java/nextstep/jdbc/StatementCallback.java:28-30 | returns the statement given to the constructor |
| StatementCallbackModel.StatementCallback.SetPreparedSql | jdbc/src/main/java/nextstep/jdbc/StatementCallback.java:18-24 | a null list changes nothing; with a statement, it binds `objects[index]` at `index + 1` in order, and a failing binding is rethrown wrapped; for a null statement, a non-empty list gives a NullPointerException |
| StatementCallbackModel.StatementCallback.CloseAsWritten | jdbc/src/main/java/nextstep/jdbc/StatementCallback.java:32-37 | as written: every non-null statement is closed again, even one already closed, and a null statement throws a NullPointerException |
| StatementCallbackModel.StatementCallback.Close | jdbc/src/main/java/nextstep/jdbc/StatementCallback.java:32-37 | corrected: an open statement is closed once; a null or already-closed statement is left alone without an error |
| StatementCallbackModel.GuardAsWrittenNeverSkips | jdbc/src/main/java/nextstep/jdbc/StatementCallback.java:34-35 | the written guard never skips: it closes iff the statement is non-null, and dereferences null iff it is null |
| StatementCallbackModel.GuardCounterexamples | jdbc/src/main/java/nextstep/jdbc/StatementCallback.java:34 | the two inputs on which the written guard departs from the intended one |
| StatementCallbackModel.GuardIntendedSafe | jdbc/src/main/java/nextstep/jdbc/StatementCallback.java:34 | the intended guard never dereferences null; it closes exactly an open non-null statement, and there it agrees with the written guard |
| DataSourceUtils.TransactionSynchronizationManager.GetResource | jdbc/src/main/java/org/springframework/jdbc/datasource/DataSourceUtils.java:15 | the bound connection iff the key is bound |
| DataSourceUtils.TransactionSynchronizationManager.BindResource | jdbc/src/main/java/org/springframework/jdbc/datasource/DataSourceUtils.java:22 | binds the key to the connection and keeps every binding's connection on its key's data source |
| DataSourceUtils.TransactionSynchronizationManager.UnbindResource | jdbc/src/main/java/org/springframework/jdbc/datasource/DataSourceUtils.java:35 | removes exactly that key |
| DataSourceUtils.GetConnection | jdbc/src/main/java/org/springframework/jdbc/datasource/DataSourceUtils.java:14-27 | a bound connection is returned with no driver call; otherwise one acquisition, and a fresh connection bound and returned; a failing acquisition gives CannotGetJdbcConnectionException with the cause and leaves the registry unchanged |
| DataSourceUtils.ReleaseConnection | jdbc/src/main/java/org/springframework/jdbc/datasource/DataSourceUtils.java:29-39 | with a transaction active: no close and no unbind; otherwise one close, then unbind; a failing close gives CannotGetJdbcConnectionException and keeps the binding; the connection ends closed iff it was, or no transaction is active and the close succeeds; its auto-commit mode is untouched |
| DataSourceUtils.GetConnectionTwice | jdbc/src/main/java/org/springframework/jdbc/datasource/DataSourceUtils.java:14-27 | two calls in a row return the same handle; after a success, at most one acquisition happened in all; when acquiring fails, nothing is bound (and, with the fault plan fixed, the second call fails the same way) |
| TransactionExecutorModel.TransactionExecutor.Execute | jdbc/src/main/java/org/springframework/transaction/support/TransactionExecutor.java:20-36 | appends exactly the journal of `ExecuteRun` and returns its result |
| TransactionExecutorModel.TransactionExecutor.GetConnection | jdbc/src/main/java/org/springframework/transaction/support/TransactionExecutor.java:38-45 | a fresh connection in auto-commit mode, or the acquisition's SQLException wrapped |
| TransactionExecutorModel.TransactionExecutor.Work | jdbc/src/main/java/org/springframework/transaction/support/TransactionExecutor.java:23-28 | auto-commit off, then the strategy, then commit, each only after the previous succeeded, as `WorkRun`; the connection stays open and is left in manual-commit mode unless `setAutoCommit(false)` threw |
| TransactionExecutorModel.TransactionExecutor.Rollback | jdbc/src/main/java/org/springframework/transaction/support/TransactionExecutor.java:47-54 | one rollback call, with its SQLException wrapped |
| TransactionExecutorModel.TransactionExecutor.Close | jdbc/src/main/java/org/springframework/transaction/support/TransactionExecutor.java:56-63 | one close call, with its SQLException wrapped; the connection is closed iff the close succeeds |
| TransactionExecutorModel.OneConnection | jdbc/src/main/java/org/springframework/transaction/support/TransactionExecutor.java:21-34 | every call of `execute` is on the one connection it obtained: the strategy, the commit or rollback, and the close |
| TransactionExecutorModel.AutoCommitOffFirst | jdbc/src/main/java/org/springframework/transaction/support/TransactionExecutor.java:24-26 | the strategy runs at most once, and right after a successful `setAutoCommit(false)` |
| TransactionExecutorModel.CommitOnlyAfterStrategy | jdbc/src/main/java/org/springframework/transaction/support/TransactionExecutor.java:26-28 | commit is attempted only right after the strategy returned normally |
| TransactionExecutorModel.RollbackOnSqlException | jdbc/src/main/java/org/springframework/transaction/support/TransactionExecutor.java:29-32 | a rollback happens iff an SQLException ended the try block, and then a wrapped SQLException is thrown; an unchecked exception from the strategy neither commits nor rolls back, and is rethrown as itself unless the close fails |
| TransactionExecutorModel.NeverCommitAndRollback | jdbc/src/main/java/org/springframework/transaction/support/TransactionExecutor.java:23-32 | a successful commit and a rollback never both happen in one `execute` |
| TransactionExecutorModel.ClosedOnceLast | jdbc/src/main/java/org/springframework/transaction/support/TransactionExecutor.java:33-35 | an obtained connection is closed exactly once, as the last call |
| TransactionExecutorModel.ExecuteLifecycle | jdbc/src/main/java/org/springframework/transaction/support/TransactionExecutor.java:21-35 | `execute` closes everything it opens, last opened first, on every path, and so closes each resource exactly as often as it opened it |
| TransactionExecutorModel.ExecuteOutcome | jdbc/src/main/java/org/springframework/transaction/support/TransactionExecutor.java:20-36 | `execute` succeeds iff obtaining the connection, auto-commit off, the strategy, the commit and the close all succeed |
| TransactionManagerModel.StatusFor | jdbc/src/main/java/nextstep/transaction/DataSourceTransactionManager.java:20-21 | the status carries the definition's isolation level, propagation behaviour and read-only flag, and the connection |
| TransactionManagerModel.DataSourceTransactionManager.GetTransaction | jdbc/src/main/java/nextstep/transaction/DataSourceTransactionManager.java:17-25 | the status for the definition with the registry's connection: a bound one is reused, or a new one is acquired and bound; a failing acquisition gives TransactionException and binds nothing |
| TransactionManagerModel.DataSourceTransactionManager.Commit | jdbc/src/main/java/nextstep/transaction/DataSourceTransactionManager.java:28-36 | commits the status's connection, then releases the binding; a throwing commit gives TransactionException and releases nothing |
| TransactionManagerModel.DataSourceTransactionManager.Rollback | jdbc/src/main/java/nextstep/transaction/DataSourceTransactionManager.java:39-47 | rolls back the status's connection, then releases the binding; a throwing rollback gives TransactionException and releases nothing |
| UserServiceModel.User.ChangePassword | app/src/main/java/com/techcourse/service/UserService.java:36 | the user's password becomes the new one |
| UserServiceModel.UserService.ChangePassword | app/src/main/java/com/techcourse/service/UserService.java:34-57 | the password is changed on every path, including a failing acquisition, which propagates with no further call; otherwise the journal and result are those of `TransactionRun` on the obtained connection; with no transaction active and a succeeding close, the data source's binding is gone afterwards; otherwise a binding that existed is kept, and a newly acquired connection stays bound, open, and in manual-commit mode unless `setAutoCommit(false)` threw; a connection that was already bound ends in manual-commit mode unless that call threw, and closed iff it was, or no transaction is active and the release's close succeeds; connections bound for other data sources are outside its frame and are not touched |
| UserServiceModel.UserService.InTransaction | app/src/main/java/com/techcourse/service/UserService.java:40-56 | the try-catch-finally on the obtained connection appends exactly the journal of `TransactionRun` and returns its result; the release unbinds the data source iff no transaction is active and the close succeeds, and otherwise leaves the registry as it was; the transaction flag is unchanged; the connection ends in manual-commit mode unless `setAutoCommit(false)` threw, and closed iff it was, or the release closed it |
| UserServiceModel.UserService.Writes | app/src/main/java/com/techcourse/service/UserService.java:41-45 | auto-commit off, the update, the history log, the commit, each only after the previous one succeeded, as `WritesRun`; the connection is switched to manual commit unless that call threw, and is not closed |
| UserServiceModel.AutoCommitOffBeforeWrites | app/src/main/java/com/techcourse/service/UserService.java:42-44 | the first call is `setAutoCommit(false)`, and a DAO write happens only after it succeeded |
| UserServiceModel.CommitOnlyAfterBothWrites | app/src/main/java/com/techcourse/service/UserService.java:43-45 | commit is attempted only right after the user update and the history log, both successful, in that order |
| UserServiceModel.RollbackOnSqlException | app/src/main/java/com/techcourse/service/UserService.java:46-53 | a rollback happens iff an SQLException ended the try block, and then the caller gets a translated SQLException unless the release fails; an unchecked exception from either DAO write (the user update, or the history log after a successful update) skips commit and rollback and reaches the caller as itself unless the release fails |
| UserServiceModel.ReleaseOnEveryPath | app/src/main/java/com/techcourse/service/UserService.java:54-56 | with no transaction active, the one close is the last call on every path, and a failing close replaces the pending outcome; with a transaction active, nothing is closed |
| UserServiceModel.ChangePasswordLifecycle | app/src/main/java/com/techcourse/service/UserService.java:38-56 | with no transaction active, a freshly acquired connection is closed on every path, and each resource is closed exactly as often as it was opened |
| UserServiceModel.ChangePasswordOutcome | app/src/main/java/com/techcourse/service/UserService.java:40-56 | the change succeeds iff auto-commit off, both writes, the commit and the release all succeed |

## Left out

- Propagation kinds (REQUIRED, REQUIRES_NEW and so on): no shown code implements them, so there is no propagation table. The status only carries the propagation number.
- The thread-local storage behind `TransactionSynchronizationManager` is not part of this model. The registry is one shared map plus the "actual transaction active" flag, and nothing here sets that flag.
- SQL text, the driver, the connection pool and the database are abstract. A driver call throws exactly when its shape is in the fault plan, and every query answers with the data source's fixed rows.
- Update counts are not modelled: the templates' `update` returns nothing in the shown code.
- Closing a connection does not cascade to its statements, closing a statement does not cascade to its current result set (as `java.sql.Statement.close` does), and calls on a closed resource are not rejected. The shown code never makes such calls, apart from the double close of `StatementCallback.close`.
- The driver rule that `commit` and `rollback` fail in auto-commit mode is not modelled. `DataSourceTransactionManager` commits or rolls back a connection that it never switched out of auto-commit mode, and the model lets those calls succeed unless they are in the fault plan.
- `nextstep.jdbc.DataSourceUtils` is not part of this model. `DataSourceTransactionManager` uses the registry of `org.springframework.jdbc.datasource.DataSourceUtils` in its place. A failure to obtain a connection counts as the SQLException its catch clause turns into TransactionException. `release(dataSource)` is modelled as unbinding the key, with no close and no exception.
- `IntConsumerWrapper` is not part of this model. It is taken to rethrow a binding's SQLException wrapped in a RuntimeException.
- `RowMapperResultSetExtractor` is not part of this model. It is modelled as the standard `while (rs.next())` loop that maps each row.
- The row mapper is a function from a row to a value or a failure (the SQLException of `MapRow`). It reads only the current row. It cannot return null, so the NullPointerException that `Optional.of` throws in the core `queryForObject` for a null mapping is not modelled (jdbc/src/main/java/org/springframework/jdbc/core/JdbcTemplate.java:61). Unchecked exceptions thrown by a mapper are not modelled either.
- The statement setter of the `com.techcourse.dao` template is modelled as positional binding of a list of values. Its implementations are not shown.
- `StatementCallback.doInStatement` is abstract in the source and has no model.
- `UserService.findById`, `insert`, the DAO internals (`UserDao`, `UserHistoryDao`) and `TxUserService` are left out. The user is passed in, and the two DAO writes are abstract tasks that may throw an SQLException or an unchecked exception.
- `UserService` calls a one-argument `userDao.update(user)`, which the shown `UserDao` does not have: its `update` takes the connection to run on. Neither DAO method declares `SQLException`, so an SQLException from `UpdateUser` or `LogHistory` is an over-approximation of the shown code, kept because the catch clauses are written for it.
- `UserService` calls a one-argument `releaseConnection(dataSource)`, which the shown `DataSourceUtils` does not have. It is modelled as the shown `releaseConnection(conn, dataSource)`.
- `SQLExceptionTranslator` is not part of this model. Its result is modelled as a distinct exception wrapping the SQLException.
- Logging, `System.out` and the text of the error messages are left out. Of the size errors, only the kind is kept, and the count for two or more rows.
- The `nextstep.jdbc` test file expects another variant (an `int` update and `NotSingleResultDataException`). The model follows the shown template.
- CoreJdbcTemplate.UpdateLifecycle: closing "exactly once, in reverse order" is proved except in the binding leak. There the code does leave the prepared statement unclosed, so the property holds iff there is no leak.
- NextstepJdbcTemplate.ExecuteLifecycle: the result set that the queries open is never closed explicitly by the template; the driver would close it with the statement, a cascade the model leaves out. The property, over explicit closes, is proved iff no result set was opened.
- DaoJdbcTemplate.SelectLifecycle: resources acquired before the `try` stay open when a later step before it throws. The property is proved iff the `try` was reached or nothing was opened.
- UserServiceModel.UserService.ChangePassword: the connection it acquires itself and the release then closes and unbinds is not reachable afterwards, so its final flags are not stated.
- Aliasing between the objects passed in (for example, two templates sharing one data source) is covered only through the one shared journal.

## Findings

| source | as written | input that shows it | evidently intended | confidence | as-written member | corrected member |
|---|---|---|---|---|---|---|
| jdbc/src/main/java/nextstep/jdbc/StatementCallback.java:34 | `if (pstmt != null \|\| !pstmt.isClosed()) pstmt.close();` | a null statement: the right operand dereferences null and throws NullPointerException; a non-null statement that is already closed: closed a second time | `pstmt != null && !pstmt.isClosed()`: close only an open, non-null statement | not executed | StatementCallbackModel.GuardCounterexamples | StatementCallbackModel.GuardIntendedSafe |
