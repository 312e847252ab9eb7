/** The JDBC sink: its configuration, and the batch driver that moves up to `batchSize` events
    from a Flume channel into the database inside one channel transaction and one database
    transaction, keeping the sink's counters. */
module Sink {
  import opened Wrappers
  import opened Failures
  import opened Text
  import opened Numbers
  import opened Mapping
  import opened ConnectionPool

  const DefaultBatchSize: int := 20
  const SqlDialectKey: string := "sqlDialect"
  const TableKey: string := "table"
  const BatchSizeKey: string := "batchSize"
  const SqlKey: string := "sql"

  /** What `process` tells the sink runner. */
  datatype Status = Ready | Backoff

  /** The SQL dialects the sink documents. */
  datatype Dialect = Cubrid | Derby | Firebird | H2 | Hsqldb | MariaDb | MySql | Postgres | Sqlite

  function DialectName(d: Dialect): string
  {
    match d
    case Cubrid => "CUBRID"
    case Derby => "DERBY"
    case Firebird => "FIREBIRD"
    case H2 => "H2"
    case Hsqldb => "HSQLDB"
    case MariaDb => "MARIADB"
    case MySql => "MYSQL"
    case Postgres => "POSTGRES"
    case Sqlite => "SQLITE"
  }

  /** `SQLDialect.valueOf(name)`: the dialect spelled exactly so, or None for the
      IllegalArgumentException. */
  function DialectOf(name: string): (r: Option<Dialect>)
    ensures r.Some? ==> DialectName(r.value) == name
    ensures r.None? ==> forall d: Dialect :: DialectName(d) != name
  {
    if name == "CUBRID" then Some(Cubrid)
    else if name == "DERBY" then Some(Derby)
    else if name == "FIREBIRD" then Some(Firebird)
    else if name == "H2" then Some(H2)
    else if name == "HSQLDB" then Some(Hsqldb)
    else if name == "MARIADB" then Some(MariaDb)
    else if name == "MYSQL" then Some(MySql)
    else if name == "POSTGRES" then Some(Postgres)
    else if name == "SQLITE" then Some(Sqlite)
    else None
  }

  /** The generator `configure` chooses: automatic mapping to a table, or a custom SQL
      template (whose own behaviour is outside this model). */
  datatype QueryGenerator = Mapped(generator: MappingQueryGenerator) | Templated(dialect: Dialect, sql: string)

  /** The sink's counters, as the Flume `SinkCounter` keeps them. */
  datatype Counts = Counts(drainAttempts: nat, batchComplete: nat, batchUnderflow: nat, batchEmpty: nat,
                           drainSuccess: nat, connectionFailed: nat)

  const Zero: Counts := Counts(0, 0, 0, 0, 0, 0)

  /** The calls on the channel transaction and on the connection, in the order they were made.
      A commit is recorded only when it returned; a database rollback is recorded as attempted,
      with whether it returned. */
  datatype Op =
    | BeginTx | Borrow | Take | Query | DbCommit | DbRollback(done: bool)
    | CommitTx | RollbackTx | CloseTx | CloseConnection

  /** The calls that may throw during `process`, and where: `transaction.begin()`, the k-th
      `channel.take()` (counting from 0), `connection.commit()`, `transaction.commit()`. */
  datatype Step = AtBegin | AtTake(k: nat) | AtDbCommit | AtChannelCommit

  /** A throwable; `fatal` when it is a java.lang.Error rather than an exception. */
  datatype Fault = Fault(step: Step, fatal: bool)

  /** What `connection.rollback()` in the catch block does: it returns, or throws an exception
      (which the catch block logs) or a java.lang.Error (`fatal`, which no handler there catches). */
  datatype RollbackResult = RollbackReturns | RollbackThrows(fatal: bool)

  /** Everything `process` learns from its collaborators: the one call that throws (if any),
      whether the pool lends a connection, what `connection.rollback()` does, the database as
      the mapping generator sees it, and what a template generator's `executeQuery` gives. */
  datatype Environment = Environment(fault: Option<Fault>, poolAvailable: bool, rollback: RollbackResult,
                                     db: Database, templateOutcome: Result<bool, Failure>)

  predicate FaultAt(env: Environment, step: Step)
  {
    env.fault.Some? && env.fault.value.step == step
  }

  function FaultFailure(env: Environment): Failure
    requires env.fault.Some?
  {
    CollaboratorFailure(env.fault.value.fatal)
  }

  /** The take that throws among the first n, if one does. */
  function TakeFault(env: Environment, n: nat): (k: Option<nat>)
    ensures k.Some? ==> k.value < n && FaultAt(env, AtTake(k.value))
    ensures k.None? ==> forall i :: 0 <= i < n ==> !FaultAt(env, AtTake(i))
  {
    if env.fault.Some? && env.fault.value.step.AtTake? && env.fault.value.step.k < n then Some(env.fault.value.step.k)
    else None
  }

  /** Whether a throwable ends `process` with a rethrow (`t instanceof Error`). */
  predicate IsFatal(f: Failure)
  {
    f == CollaboratorFailure(true)
  }

  function Min(a: nat, b: nat): nat
  {
    if a <= b then a else b
  }

  function Max0(n: int): nat
  {
    if n > 0 then n else 0
  }

  function Takes(n: nat): (ops: seq<Op>)
    ensures |ops| == n && forall i :: 0 <= i < n ==> ops[i] == Take
  {
    seq(n, i => Take)
  }

  // ---- takeEventsFromChannel ----

  /** What n calls of `channel.take()` return on a channel holding `queue`: its events in order,
      then null once it is empty. */
  function Polls(queue: seq<Event>, n: nat): (polls: seq<Option<Event>>)
    ensures |polls| == n
  {
    seq(n, i requires 0 <= i < n => if i < |queue| then Some(queue[i]) else None)
  }

  /** `events.removeAll(Collections.singleton(null))`: the non-null elements, in order. */
  function RemoveNulls(xs: seq<Option<Event>>): (r: seq<Event>)
    ensures |r| <= |xs|
    decreases |xs|
  {
    if xs == [] then []
    else
      var pre := RemoveNulls(xs[..|xs| - 1]);
      match xs[|xs| - 1]
      case None => pre
      case Some(e) => pre + [e]
  }

  /** Removing the nulls keeps exactly the events taken. */
  lemma {:induction false} RemoveNullsMembers(xs: seq<Option<Event>>)
    ensures forall e :: e in RemoveNulls(xs) <==> Some(e) in xs
    decreases |xs|
  {
    if xs != [] {
      var pre := xs[..|xs| - 1];
      RemoveNullsMembers(pre);
      assert xs == pre + [xs[|xs| - 1]];
    }
  }

  /** A drain of n takes yields the first n events of the channel, or all of them when it
      holds fewer: a batch never exceeds `batchSize` and keeps the channel's order. */
  lemma {:induction false} DrainIsPrefix(queue: seq<Event>, n: nat)
    ensures RemoveNulls(Polls(queue, n)) == queue[..Min(n, |queue|)]
    decreases n
  {
    if n > 0 {
      var polls := Polls(queue, n);
      assert polls[..n - 1] == Polls(queue, n - 1);
      DrainIsPrefix(queue, n - 1);
      if n - 1 < |queue| {
        assert queue[..n] == queue[..n - 1] + [queue[n - 1]];
      }
    }
  }

  // ---- process, as a function of its inputs ----

  /** The result of one `process`: what it returns, the calls it made, the channel's events
      afterwards and the counters afterwards. */
  datatype Outcome = Outcome(result: Result<Status, Failure>, ops: seq<Op>, queue: seq<Event>, counts: Counts)

  /** The calls of the catch and finally blocks: the database rollback (when there is a
      connection), the channel rollback, then closing the transaction and the connection. */
  function AbortOps(connected: bool, env: Environment): seq<Op>
  {
    (if connected then [DbRollback(env.rollback.RollbackReturns?)] else []) + [RollbackTx, CloseTx]
      + (if connected then [CloseConnection] else [])
  }

  /** An Error thrown by `connection.rollback()`: it escapes the catch block unwrapped once the
      inner finally has run, unless that finally rethrows the original Error first. */
  predicate RollbackEscapes(connected: bool, env: Environment)
  {
    connected && env.rollback == RollbackThrows(true)
  }

  /** The catch block: the channel gets every taken event back, the connection-failed counter
      grows, and the status is BACKOFF unless the throwable was an Error (rethrown wrapped) or
      the database rollback threw an Error (which escapes as it is). */
  function Abort(f: Failure, ops: seq<Op>, connected: bool, queue: seq<Event>, c: Counts, env: Environment): Outcome
  {
    Outcome(if IsFatal(f) then Err(SinkFatal)
            else if RollbackEscapes(connected, env) then Err(CollaboratorFailure(true))
            else Ok(Backoff),
            ops + AbortOps(connected, env), queue, c.(connectionFailed := c.connectionFailed + 1))
  }

  /** `transaction.commit()` and the finally block, after `consumed` events were taken. */
  function Finish(ops: seq<Op>, queue: seq<Event>, consumed: nat, c: Counts, env: Environment): Outcome
    requires consumed <= |queue|
  {
    if FaultAt(env, AtChannelCommit) then Abort(FaultFailure(env), ops, true, queue, c, env)
    else Outcome(Ok(Ready), ops + [CommitTx, CloseTx, CloseConnection], queue[consumed..], c)
  }

  /** What the generator's `executeQuery` gives for a batch. */
  function QueryResult(gen: QueryGenerator, events: seq<Event>, env: Environment): Result<bool, Failure>
  {
    match gen
    case Mapped(g) =>
      (match QueryOutcome(g.table, events, env.db)
       case Err(f) => Err(f)
       case Ok(run) => Ok(run.success))
    case Templated(_, _) => env.templateOutcome
  }

  /** The batch counter a drained batch of this size bumps. */
  function Classified(c: Counts, size: nat, batchSize: int): Counts
  {
    if size == 0 then c.(batchEmpty := c.batchEmpty + 1)
    else if size == batchSize then c.(batchComplete := c.batchComplete + 1)
    else c.(batchUnderflow := c.batchUnderflow + 1)
  }

  /** The events a drain that completed takes: the first `batchSize` of the channel. */
  function Batch(queue: seq<Event>, batchSize: int): (events: seq<Event>)
    ensures |events| <= |queue| && |events| <= Max0(batchSize)
  {
    queue[..Min(Max0(batchSize), |queue|)]
  }

  /** One `process` on a channel holding `queue`, with counters `c`, when `getConnection`
      gives `conn` and the generator's `executeQuery` would answer `executed` on the batch
      (`QueryResult` of the batch, in `JdbcSink.Process`). */
  function Run(executed: Result<bool, Failure>, batchSize: int, queue: seq<Event>, c: Counts, conn: Result<Connection, Failure>, env: Environment): Outcome
  {
    if FaultAt(env, AtBegin) then Abort(FaultFailure(env), [], false, queue, c, env)
    else if conn.Err? then Abort(conn.error, [BeginTx], false, queue, c, env)
    else Connected(executed, batchSize, queue, c, env, [BeginTx, Borrow])
  }

  /** The rest of `process` once the transaction began and a connection was obtained (the calls
      so far are `ops`): the drain. */
  function Connected(executed: Result<bool, Failure>, batchSize: int, queue: seq<Event>, c: Counts, env: Environment, ops: seq<Op>): Outcome
  {
    var n := Max0(batchSize);
    match TakeFault(env, n)
    case Some(k) =>
      Abort(FaultFailure(env), ops + Takes(k), true, queue, c.(drainAttempts := c.drainAttempts + k + 1), env)
    case None =>
      Drained(executed, batchSize, queue, c.(drainAttempts := c.drainAttempts + n), env, ops + Takes(n))
  }

  /** The rest of `process` once the drain completed: the batch counter, then for a non-empty
      batch the query and the database commit, then the channel commit. */
  function Drained(executed: Result<bool, Failure>, batchSize: int, queue: seq<Event>, c: Counts, env: Environment, ops: seq<Op>): Outcome
  {
    var events := Batch(queue, batchSize);
    var counted := Classified(c, |events|, batchSize);
    if events == [] then Finish(ops, queue, 0, counted, env)
    else Queried(executed, queue, |events|, counted, env, ops)
  }

  /** The query on the first `consumed` events of the channel, the database commit and the
      channel commit. */
  function Queried(executed: Result<bool, Failure>, queue: seq<Event>, consumed: nat, c: Counts, env: Environment, ops: seq<Op>): Outcome
    requires consumed <= |queue|
  {
    match executed
    case Err(f) => Abort(f, ops, true, queue, c, env)
    case Ok(success) =>
      if !success then Abort(QueryFailed, ops + [Query], true, queue, c, env)
      else if FaultAt(env, AtDbCommit) then Abort(FaultFailure(env), ops + [Query], true, queue, c, env)
      else Finish(ops + [Query, DbCommit], queue, consumed, c.(drainSuccess := c.drainSuccess + consumed), env)
  }

  // ---- properties of process ----

  /** Calls made inside the try block. */
  predicate InTry(op: Op)
  {
    op.BeginTx? || op.Borrow? || op.Take? || op.Query? || op.DbCommit?
  }

  /** The shape every `process` leaves in the trace: the transaction is closed, the connection
      is closed exactly when one was obtained, these are the last calls, and a channel commit
      comes after every database commit and after a database commit of every queried batch. */
  predicate WellClosed(ops: seq<Op>)
  {
    && |ops| >= 2
    && (Borrow in ops ==> ops[|ops| - 2] == CloseTx && ops[|ops| - 1] == CloseConnection)
    && (Borrow !in ops ==> ops[|ops| - 1] == CloseTx && CloseConnection !in ops)
    && (forall i, j :: 0 <= i < |ops| && 0 <= j < |ops| && ops[i] == CommitTx && ops[j] == DbCommit ==> j < i)
    && (CommitTx in ops && Query in ops ==> DbCommit in ops)
  }

  lemma AbortWellClosed(f: Failure, ops: seq<Op>, connected: bool, queue: seq<Event>, c: Counts, env: Environment)
    requires forall i :: 0 <= i < |ops| ==> InTry(ops[i])
    requires connected <==> Borrow in ops
    ensures var o := Abort(f, ops, connected, queue, c, env);
            && WellClosed(o.ops)
            && CommitTx !in o.ops && RollbackTx in o.ops
            && (connected ==> DbRollback(env.rollback.RollbackReturns?) in o.ops)
            && (DbCommit in o.ops <==> DbCommit in ops)
            && (o.result == Ok(Backoff) <==> !IsFatal(f) && !RollbackEscapes(connected, env))
            && (o.result == Err(SinkFatal) <==> IsFatal(f))
            && (o.result == Err(CollaboratorFailure(true)) <==> !IsFatal(f) && RollbackEscapes(connected, env))
  {
    var all := Abort(f, ops, connected, queue, c, env).ops;
    var tail := AbortOps(connected, env);
    assert all == ops + tail;
    assert forall i :: |ops| <= i < |all| ==> all[i] == tail[i - |ops|];
    assert CommitTx !in tail && DbCommit !in tail;
    assert forall i :: 0 <= i < |all| ==> all[i] != CommitTx;
    if connected {
      assert all[|ops|] == DbRollback(env.rollback.RollbackReturns?) && all[|ops| + 1] == RollbackTx;
    } else {
      assert all[|ops|] == RollbackTx;
    }
  }

  lemma FinishWellClosed(ops: seq<Op>, queue: seq<Event>, consumed: nat, c: Counts, env: Environment)
    requires consumed <= |queue|
    requires forall i :: 0 <= i < |ops| ==> InTry(ops[i])
    requires Borrow in ops && (Query in ops ==> DbCommit in ops)
    ensures WellClosed(Finish(ops, queue, consumed, c, env).ops)
  {
    if FaultAt(env, AtChannelCommit) {
      AbortWellClosed(FaultFailure(env), ops, true, queue, c, env);
    } else {
      var all := ops + [CommitTx, CloseTx, CloseConnection];
      assert forall i :: 0 <= i < |ops| ==> all[i] == ops[i];
      assert forall i :: 0 <= i < |all| && all[i] == CommitTx ==> i == |ops|;
    }
  }

  lemma TakesInTry(ops: seq<Op>, n: nat)
    requires forall i :: 0 <= i < |ops| ==> InTry(ops[i])
    ensures forall i :: 0 <= i < |ops + Takes(n)| ==> InTry((ops + Takes(n))[i])
    ensures Query in ops + Takes(n) <==> Query in ops
    ensures DbCommit in ops + Takes(n) <==> DbCommit in ops
    ensures Borrow in ops ==> Borrow in ops + Takes(n)
  {
    assert forall op :: op in Takes(n) ==> op == Take;
  }

  lemma DrainedWellClosed(executed: Result<bool, Failure>, batchSize: int, queue: seq<Event>, c: Counts, env: Environment, ops: seq<Op>)
    requires forall i :: 0 <= i < |ops| ==> InTry(ops[i])
    requires Borrow in ops && Query !in ops && DbCommit !in ops
    ensures WellClosed(Drained(executed, batchSize, queue, c, env, ops).ops)
  {
    var events := Batch(queue, batchSize);
    var counted := Classified(c, |events|, batchSize);
    if events == [] {
      FinishWellClosed(ops, queue, 0, counted, env);
    } else {
      match executed
      case Err(f) =>
        AbortWellClosed(f, ops, true, queue, counted, env);
      case Ok(success) =>
        var queried := ops + [Query];
        assert forall i :: 0 <= i < |queried| ==> InTry(queried[i]);
        if !success {
          AbortWellClosed(QueryFailed, queried, true, queue, counted, env);
        } else if FaultAt(env, AtDbCommit) {
          AbortWellClosed(FaultFailure(env), queried, true, queue, counted, env);
        } else {
          var committed := ops + [Query, DbCommit];
          assert forall i :: 0 <= i < |committed| ==> InTry(committed[i]);
          FinishWellClosed(committed, queue, |events|, counted.(drainSuccess := counted.drainSuccess + |events|), env);
        }
    }
  }

  /** On every path the channel transaction is closed, the connection is closed exactly when
      one was obtained, and these are the last calls; the database commit always precedes the
      channel commit, and a queried batch reaches the channel commit only through the database
      commit. */
  lemma RunWellClosed(executed: Result<bool, Failure>, batchSize: int, queue: seq<Event>, c: Counts, conn: Result<Connection, Failure>, env: Environment)
    ensures WellClosed(Run(executed, batchSize, queue, c, conn, env).ops)
  {
    if FaultAt(env, AtBegin) {
      AbortWellClosed(FaultFailure(env), [], false, queue, c, env);
    } else if conn.Err? {
      AbortWellClosed(conn.error, [BeginTx], false, queue, c, env);
    } else {
      var ops := [BeginTx, Borrow];
      var n := Max0(batchSize);
      TakesInTry(ops, n);
      match TakeFault(env, n)
      case Some(k) =>
        TakesInTry(ops, k);
        AbortWellClosed(FaultFailure(env), ops + Takes(k), true, queue, c.(drainAttempts := c.drainAttempts + k + 1), env);
      case None =>
        DrainedWellClosed(executed, batchSize, queue, c.(drainAttempts := c.drainAttempts + n), env, ops + Takes(n));
    }
  }

  /** Once the transaction began, a connection was obtained and every take succeeded, `process`
      goes on as `Drained` says. */
  lemma RunDrains(executed: Result<bool, Failure>, batchSize: int, queue: seq<Event>, c: Counts, conn: Result<Connection, Failure>, env: Environment)
    requires !FaultAt(env, AtBegin) && conn.Ok? && TakeFault(env, Max0(batchSize)).None?
    ensures Run(executed, batchSize, queue, c, conn, env)
         == Drained(executed, batchSize, queue, c.(drainAttempts := c.drainAttempts + Max0(batchSize)), env, [BeginTx, Borrow] + Takes(Max0(batchSize)))
  {
  }

  /** A `process` that fails before its drain completes returns no READY. */
  lemma EarlyFailure(executed: Result<bool, Failure>, batchSize: int, queue: seq<Event>, c: Counts, conn: Result<Connection, Failure>, env: Environment)
    requires FaultAt(env, AtBegin) || conn.Err? || TakeFault(env, Max0(batchSize)).Some?
    ensures Run(executed, batchSize, queue, c, conn, env).result != Ok(Ready)
  {
  }

  /** READY means both transactions committed, the database first: the calls were begin,
      borrow, the takes, then (for a non-empty batch only) the query and the database commit,
      then the channel commit and the two closes; the batch left the channel and was counted
      as drained. */
  lemma ReadyMeansCommitted(executed: Result<bool, Failure>, batchSize: int, queue: seq<Event>, c: Counts, conn: Result<Connection, Failure>, env: Environment)
    requires Run(executed, batchSize, queue, c, conn, env).result == Ok(Ready)
    ensures var o := Run(executed, batchSize, queue, c, conn, env);
            var events := Batch(queue, batchSize);
            && o.ops == [BeginTx, Borrow] + Takes(Max0(batchSize)) + (if events == [] then [] else [Query, DbCommit])
                          + [CommitTx, CloseTx, CloseConnection]
            && o.queue == queue[|events|..]
            && o.counts.drainSuccess == c.drainSuccess + |events|
            && o.counts.connectionFailed == c.connectionFailed
  {
    if FaultAt(env, AtBegin) || conn.Err? || TakeFault(env, Max0(batchSize)).Some? {
      EarlyFailure(executed, batchSize, queue, c, conn, env);
    } else {
      var drawn := c.(drainAttempts := c.drainAttempts + Max0(batchSize));
      var ops := [BeginTx, Borrow] + Takes(Max0(batchSize));
      RunDrains(executed, batchSize, queue, c, conn, env);
      var events := Batch(queue, batchSize);
      var counted := Classified(drawn, |events|, batchSize);
      if events == [] {
        assert Drained(executed, batchSize, queue, drawn, env, ops) == Finish(ops, queue, 0, counted, env);
      } else {
        assert executed == Ok(true) && !FaultAt(env, AtDbCommit);
        assert Drained(executed, batchSize, queue, drawn, env, ops)
            == Finish(ops + [Query, DbCommit], queue, |events|, counted.(drainSuccess := counted.drainSuccess + |events|), env);
      }
    }
  }

  /** What a failed `process` leaves behind, starting from a channel holding `queue` and
      counters `c`: the channel holds all its events again, the connection-failed counter grew
      by one, the channel transaction was rolled back and never committed, a database rollback
      was attempted when there was a connection, and only a batch of `drained` events already
      committed to the database was counted as drained. The result is BACKOFF, the rethrow
      of an Error as a JDBCSinkException, or an Error the database rollback threw. */
  predicate RolledBack(o: Outcome, queue: seq<Event>, c: Counts, drained: nat, connected: bool, env: Environment)
  {
    && o.queue == queue
    && o.counts.connectionFailed == c.connectionFailed + 1
    && o.counts.drainSuccess == c.drainSuccess + (if DbCommit in o.ops then drained else 0)
    && RollbackTx in o.ops && CommitTx !in o.ops
    && (connected ==> DbRollback(env.rollback.RollbackReturns?) in o.ops)
    && (o.result == Ok(Backoff) || o.result == Err(SinkFatal) || o.result == Err(CollaboratorFailure(true)))
    && (o.result == Err(CollaboratorFailure(true)) ==> connected && env.rollback == RollbackThrows(true))
  }

  /** Whenever `process` does not return READY, it rolled back (see `RolledBack`); the
      database rollback was attempted whenever a connection was borrowed. */
  lemma FailureRollsBack(executed: Result<bool, Failure>, batchSize: int, queue: seq<Event>, c: Counts, conn: Result<Connection, Failure>, env: Environment)
    requires Run(executed, batchSize, queue, c, conn, env).result != Ok(Ready)
    ensures var o := Run(executed, batchSize, queue, c, conn, env);
            RolledBack(o, queue, c, |Batch(queue, batchSize)|, Borrow in o.ops, env)
  {
    if FaultAt(env, AtBegin) {
      AbortWellClosed(FaultFailure(env), [], false, queue, c, env);
    } else if conn.Err? {
      AbortWellClosed(conn.error, [BeginTx], false, queue, c, env);
    } else {
      ConnectedFails(executed, batchSize, queue, c, env);
    }
  }

  lemma ConnectedFails(executed: Result<bool, Failure>, batchSize: int, queue: seq<Event>, c: Counts, env: Environment)
    requires Connected(executed, batchSize, queue, c, env, [BeginTx, Borrow]).result != Ok(Ready)
    ensures RolledBack(Connected(executed, batchSize, queue, c, env, [BeginTx, Borrow]), queue, c, |Batch(queue, batchSize)|, true, env)
  {
    var ops := [BeginTx, Borrow];
    var n := Max0(batchSize);
    if TakeFault(env, n).Some? {
      TakeFailsRolledBack(executed, batchSize, queue, c, env, ops);
    } else {
      TakesInTry(ops, n);
      var drawn := c.(drainAttempts := c.drainAttempts + n);
      assert Connected(executed, batchSize, queue, c, env, ops) == Drained(executed, batchSize, queue, drawn, env, ops + Takes(n));
      DrainedFails(executed, batchSize, queue, drawn, env, ops + Takes(n));
    }
  }

  lemma TakeFailsRolledBack(executed: Result<bool, Failure>, batchSize: int, queue: seq<Event>, c: Counts, env: Environment, ops: seq<Op>)
    requires forall i :: 0 <= i < |ops| ==> InTry(ops[i])
    requires Borrow in ops && DbCommit !in ops
    requires TakeFault(env, Max0(batchSize)).Some?
    ensures RolledBack(Connected(executed, batchSize, queue, c, env, ops), queue, c, |Batch(queue, batchSize)|, true, env)
  {
    var k := TakeFault(env, Max0(batchSize)).value;
    var drawn := c.(drainAttempts := c.drainAttempts + k + 1);
    assert Connected(executed, batchSize, queue, c, env, ops) == Abort(FaultFailure(env), ops + Takes(k), true, queue, drawn, env);
    TakesInTry(ops, k);
    AbortWellClosed(FaultFailure(env), ops + Takes(k), true, queue, drawn, env);
  }

  lemma DrainedFails(executed: Result<bool, Failure>, batchSize: int, queue: seq<Event>, c: Counts, env: Environment, ops: seq<Op>)
    requires forall i :: 0 <= i < |ops| ==> InTry(ops[i])
    requires Borrow in ops && Query !in ops && DbCommit !in ops
    requires Drained(executed, batchSize, queue, c, env, ops).result != Ok(Ready)
    ensures RolledBack(Drained(executed, batchSize, queue, c, env, ops), queue, c, |Batch(queue, batchSize)|, true, env)
  {
    var events := Batch(queue, batchSize);
    var counted := Classified(c, |events|, batchSize);
    if events == [] {
      AbortWellClosed(FaultFailure(env), ops, true, queue, counted, env);
    } else {
      match executed
      case Err(f) =>
        AbortWellClosed(f, ops, true, queue, counted, env);
      case Ok(success) =>
        if !success || FaultAt(env, AtDbCommit) {
          var queried := ops + [Query];
          assert forall i :: 0 <= i < |queried| ==> InTry(queried[i]);
          assert DbCommit !in queried;
          AbortWellClosed(if !success then QueryFailed else FaultFailure(env), queried, true, queue, counted, env);
        } else {
          var committed := ops + [Query, DbCommit];
          assert forall i :: 0 <= i < |committed| ==> InTry(committed[i]);
          assert DbCommit in committed;
          AbortWellClosed(FaultFailure(env), committed, true, queue, counted.(drainSuccess := counted.drainSuccess + |events|), env);
        }
    }
  }

  /** A drain that completes bumps exactly one batch counter, chosen by the batch's size; a
      `process` that fails before the drain completes bumps none. */
  lemma OneBatchCounter(executed: Result<bool, Failure>, batchSize: int, queue: seq<Event>, c: Counts, conn: Result<Connection, Failure>, env: Environment)
    ensures var o := Run(executed, batchSize, queue, c, conn, env);
            var size := |Batch(queue, batchSize)|;
            var drained := !FaultAt(env, AtBegin) && conn.Ok? && TakeFault(env, Max0(batchSize)).None?;
            && (drained ==>
                  && o.counts.batchComplete == c.batchComplete + (if size > 0 && size == batchSize then 1 else 0)
                  && o.counts.batchUnderflow == c.batchUnderflow + (if 0 < size < batchSize then 1 else 0)
                  && o.counts.batchEmpty == c.batchEmpty + (if size == 0 then 1 else 0)
                  && o.counts.drainAttempts == c.drainAttempts + Max0(batchSize))
            && (!drained ==>
                  && o.counts.batchComplete == c.batchComplete
                  && o.counts.batchUnderflow == c.batchUnderflow
                  && o.counts.batchEmpty == c.batchEmpty)
  {
  }

  /** An empty drain runs no query and commits nothing to the database, yet commits the channel
      transaction and returns READY unless that commit throws. */
  lemma EmptyBatchCommitsChannelOnly(executed: Result<bool, Failure>, batchSize: int, queue: seq<Event>, c: Counts, conn: Result<Connection, Failure>, env: Environment)
    requires !FaultAt(env, AtBegin) && conn.Ok? && TakeFault(env, Max0(batchSize)).None?
    requires Batch(queue, batchSize) == []
    ensures var o := Run(executed, batchSize, queue, c, conn, env);
            && Query !in o.ops && DbCommit !in o.ops
            && (o.result == Ok(Ready) <==> !FaultAt(env, AtChannelCommit))
  {
    var ops := [BeginTx, Borrow] + Takes(Max0(batchSize));
    TakesInTry([BeginTx, Borrow], Max0(batchSize));
    var o := Run(executed, batchSize, queue, c, conn, env);
    var counted := Classified(c.(drainAttempts := c.drainAttempts + Max0(batchSize)), 0, batchSize);
    assert o == Finish(ops, queue, 0, counted, env);
    assert forall op :: op in Takes(Max0(batchSize)) ==> op == Take;
    if FaultAt(env, AtChannelCommit) {
      assert o.ops == ops + AbortOps(true, env);
    } else {
      assert o.ops == ops + [CommitTx, CloseTx, CloseConnection];
    }
  }

  /** Delivery is at least once: when the channel commit throws after the database commit, the
      batch is in the database and still in the channel, to be delivered again. */
  lemma RedeliveryAfterChannelCommitFailure(executed: Result<bool, Failure>, batchSize: int, queue: seq<Event>, c: Counts, conn: Result<Connection, Failure>, env: Environment)
    requires conn.Ok? && FaultAt(env, AtChannelCommit)
    requires Batch(queue, batchSize) != [] && executed == Ok(true)
    ensures var o := Run(executed, batchSize, queue, c, conn, env);
            DbCommit in o.ops && CommitTx !in o.ops && o.queue == queue && o.result != Ok(Ready)
  {
    var ops := [BeginTx, Borrow] + Takes(Max0(batchSize)) + [Query, DbCommit];
    var o := Run(executed, batchSize, queue, c, conn, env);
    assert o.ops == ops + AbortOps(true, env);
    assert ops[|ops| - 1] == DbCommit;
    assert CommitTx !in AbortOps(true, env);
    assert forall op :: op in Takes(Max0(batchSize)) ==> op == Take;
  }

  // ---- configuration ----

  /** Flume `context.getInteger(key, default)`: the default when the key is absent, otherwise
      `Integer.parseInt` of the trimmed value, whose NumberFormatException escapes. */
  function BatchSizeOf(context: Context): (r: Result<int, Failure>)
    ensures BatchSizeKey !in context ==> r == Ok(DefaultBatchSize)
    ensures r.Ok? ==> IntMin <= r.value <= IntMax
  {
    if BatchSizeKey !in context then Ok(DefaultBatchSize)
    else
      match ParseInt(Trim(context[BatchSizeKey]))
      case None => Err(BadNumber(context[BatchSizeKey]))
      case Some(n) => Ok(n)
  }

  lemma {:induction false} DecimalHasNoBlanks(n: int)
    ensures forall i :: 0 <= i < |Decimal(n)| ==> Decimal(n)[i] > ' '
  {
    var d := Decimal(n);
    var digits := NatDecimal(if n < 0 then -n else n);
    assert AllDigits(digits);
    if n < 0 {
      forall i | 0 <= i < |d| ensures d[i] > ' ' {
        if i > 0 { assert d[i] == digits[i - 1]; }
      }
    }
  }

  lemma {:induction false} TrimKeepsSolid(s: string)
    requires forall i :: 0 <= i < |s| ==> s[i] > ' '
    ensures Trim(s) == s
  {
  }

  /** A configured batch size is read back as written, for every int. */
  lemma BatchSizeRoundTrip(context: Context, n: int)
    requires IntMin <= n <= IntMax
    ensures BatchSizeOf(context[BatchSizeKey := Decimal(n)]) == Ok(n)
  {
    DecimalHasNoBlanks(n);
    TrimKeepsSolid(Decimal(n));
    DecimalRoundTrip(n, IntMin, IntMax);
  }

  /** `SQLDialect.valueOf(context.getString("sqlDialect").toUpperCase(Locale.ENGLISH))`: a
      missing key fails on the null string, an unknown name with an IllegalArgumentException. */
  function DialectSetting(context: Context): Result<Dialect, Failure>
  {
    if SqlDialectKey !in context then Err(UnknownDialect(None))
    else
      match DialectOf(ToUpper(context[SqlDialectKey]))
      case None => Err(UnknownDialect(Some(context[SqlDialectKey])))
      case Some(d) => Ok(d)
  }

  predicate UpperName(s: string)
  {
    forall i :: 0 <= i < |s| ==> 'A' <= s[i] <= 'Z' || '0' <= s[i] <= '9'
  }

  lemma UpperMatchesIgnoringCase(c: char, n: char)
    requires 'A' <= n <= 'Z' || '0' <= n <= '9'
    ensures Upper(c) == n <==> Lower(c) == Lower(n)
  {
  }

  lemma {:induction false} ToUpperMatchesIgnoringCase(s: string, name: string)
    requires UpperName(name)
    ensures ToUpper(s) == name <==> EqualsIgnoreCase(s, name)
  {
    if |s| == |name| {
      forall i | 0 <= i < |s| ensures Upper(s[i]) == name[i] <==> Lower(s[i]) == Lower(name[i]) {
        UpperMatchesIgnoringCase(s[i], name[i]);
      }
      if EqualsIgnoreCase(s, name) {
        assert forall i :: 0 <= i < |s| ==> ToUpper(s)[i] == name[i];
      }
    }
  }

  /** The dialect is read case-insensitively: a name selects a dialect exactly when it equals
      that dialect's name up to case. */
  lemma DialectIgnoresCase(context: Context, d: Dialect)
    requires SqlDialectKey in context
    ensures DialectSetting(context) == Ok(d) <==> EqualsIgnoreCase(context[SqlDialectKey], DialectName(d))
  {
    assert UpperName(DialectName(d));
    ToUpperMatchesIgnoringCase(context[SqlDialectKey], DialectName(d));
  }

  // ---- the collaborators ----

  /** A Flume channel: the events it holds, and those taken by the open transaction. */
  class Channel {
    var queue: seq<Event>
    var taken: seq<Event>

    constructor (events: seq<Event>)
      ensures queue == events && taken == []
    {
      queue := events;
      taken := [];
    }

    /** `channel.take()`: the oldest event, or null when the channel is empty. */
    method Take() returns (e: Option<Event>)
      modifies this
      ensures old(queue) == [] ==> e == None && queue == [] && taken == old(taken)
      ensures old(queue) != [] ==> e == Some(old(queue)[0]) && queue == old(queue)[1..] && taken == old(taken) + [old(queue)[0]]
    {
      if queue == [] {
        return None;
      }
      e := Some(queue[0]);
      taken := taken + [queue[0]];
      queue := queue[1..];
    }

    /** `transaction.commit()`: the taken events are gone for good. */
    method Commit()
      modifies this
      ensures queue == old(queue) && taken == []
    {
      taken := [];
    }

    /** `transaction.rollback()`: the taken events go back to the front, in order. */
    method Rollback()
      modifies this
      ensures queue == old(taken) + old(queue) && taken == []
    {
      queue := taken + queue;
      taken := [];
    }
  }

  /** Flume's `SinkCounter`. */
  class SinkCounter {
    var counts: Counts

    constructor ()
      ensures counts == Zero
    {
      counts := Zero;
    }

    method IncrementEventDrainAttemptCount()
      modifies this
      ensures counts == old(counts).(drainAttempts := old(counts).drainAttempts + 1)
    {
      counts := counts.(drainAttempts := counts.drainAttempts + 1);
    }

    method IncrementBatchCompleteCount()
      modifies this
      ensures counts == old(counts).(batchComplete := old(counts).batchComplete + 1)
    {
      counts := counts.(batchComplete := counts.batchComplete + 1);
    }

    method IncrementBatchUnderflowCount()
      modifies this
      ensures counts == old(counts).(batchUnderflow := old(counts).batchUnderflow + 1)
    {
      counts := counts.(batchUnderflow := counts.batchUnderflow + 1);
    }

    method IncrementBatchEmptyCount()
      modifies this
      ensures counts == old(counts).(batchEmpty := old(counts).batchEmpty + 1)
    {
      counts := counts.(batchEmpty := counts.batchEmpty + 1);
    }

    method AddToEventDrainSuccessCount(n: nat)
      modifies this
      ensures counts == old(counts).(drainSuccess := old(counts).drainSuccess + n)
    {
      counts := counts.(drainSuccess := counts.drainSuccess + n);
    }

    method IncrementConnectionFailedCount()
      modifies this
      ensures counts == old(counts).(connectionFailed := old(counts).connectionFailed + 1)
    {
      counts := counts.(connectionFailed := counts.connectionFailed + 1);
    }
  }

  // ---- the sink ----

  class JdbcSink {
    const manager: ConnectionManager
    const channel: Channel
    var counter: SinkCounter?
    var batchSize: int
    var dialect: Option<Dialect>
    var generator: Option<QueryGenerator>
    /** The calls made on channel transactions and connections so far. */
    ghost var trace: seq<Op>

    /** Configured and between two `process` calls. */
    predicate Valid()
      reads this, channel
    {
      counter != null && generator.Some? && channel.taken == []
    }

    constructor (manager: ConnectionManager, channel: Channel)
      ensures this.manager == manager && this.channel == channel
      ensures counter == null && batchSize == 0 && dialect == None && generator == None && trace == []
    {
      this.manager := manager;
      this.channel := channel;
      counter := null;
      batchSize := 0;
      dialect := None;
      generator := None;
      trace := [];
    }

    /** `takeEventsFromChannel(channel, eventsToTake)`: counts an attempt and takes an event
        `eventsToTake` times, then drops the nulls. The k-th take throws when the environment
        says so. */
    method TakeEventsFromChannel(eventsToTake: int, env: Environment) returns (r: Result<seq<Event>, Failure>)
      requires counter != null
      modifies this`trace, channel, counter
      ensures var n := Max0(eventsToTake);
              var done := if TakeFault(env, n).Some? then TakeFault(env, n).value else n;
              var moved := old(channel.queue)[..Min(done, |old(channel.queue)|)];
              && channel.taken == old(channel.taken) + moved
              && channel.queue == old(channel.queue)[|moved|..]
              && counter.counts == old(counter.counts).(drainAttempts := old(counter.counts).drainAttempts
                                     + (if TakeFault(env, n).Some? then done + 1 else n))
              && trace == old(trace) + Takes(done)
              && r == (if TakeFault(env, n).Some? then Err(FaultFailure(env)) else Ok(RemoveNulls(Polls(old(channel.queue), n))))
    {
      var n := Max0(eventsToTake);
      ghost var q0 := channel.queue;
      var events: seq<Option<Event>> := [];
      var i := 0;
      while i < n
        invariant 0 <= i <= n
        invariant forall j :: 0 <= j < i ==> !FaultAt(env, AtTake(j))
        invariant events == Polls(q0, i)
        invariant channel.taken == old(channel.taken) + q0[..Min(i, |q0|)]
        invariant channel.queue == q0[Min(i, |q0|)..]
        invariant counter.counts == old(counter.counts).(drainAttempts := old(counter.counts).drainAttempts + i)
        invariant trace == old(trace) + Takes(i)
      {
        counter.IncrementEventDrainAttemptCount();
        if FaultAt(env, AtTake(i)) {
          return Err(FaultFailure(env));
        }
        var e := channel.Take();
        trace := trace + [Take];
        if i < |q0| {
          assert q0[..i + 1] == q0[..i] + [q0[i]];
        }
        events := events + [e];
        i := i + 1;
      }
      r := Ok(RemoveNulls(events));
    }

    /** `process`: one batch inside a channel transaction and a database transaction; see
        `Run` for the whole behaviour and the lemmas above for what it guarantees. */
    method Process(env: Environment) returns (r: Result<Status, Failure>)
      requires Valid()
      modifies this`trace, channel, counter
      ensures Valid()
      ensures var o := Run(QueryResult(generator.value, Batch(old(channel.queue), batchSize), env), batchSize, old(channel.queue), old(counter.counts),
                           old(manager.Borrowed(env.poolAvailable)), env);
              && r == o.result && channel.queue == o.queue && counter.counts == o.counts
              && trace == old(trace) + o.ops
    {
      ghost var queue := channel.queue;
      // try
      if FaultAt(env, AtBegin) {
        r := Recover(FaultFailure(env), false, env, old(trace), [], queue);
        return;
      }
      trace := trace + [BeginTx];
      var connection := manager.GetConnection(env.poolAvailable);
      if connection.Err? {
        r := Recover(connection.error, false, env, old(trace), [BeginTx], queue);
        return;
      }
      trace := trace + [Borrow];
      r := Drain(env, old(trace), [BeginTx, Borrow], queue);
    }

    /** The try block of `process` from `takeEventsFromChannel` on, once the transaction began
        and a connection was obtained with the calls `ops`. */
    method Drain(env: Environment, ghost before: seq<Op>, ghost ops: seq<Op>, ghost queue: seq<Event>) returns (r: Result<Status, Failure>)
      requires counter != null && generator.Some?
      requires channel.taken == [] && channel.queue == queue
      requires trace == before + ops
      modifies this`trace, channel, counter
      ensures var o := Connected(QueryResult(generator.value, Batch(queue, batchSize), env), batchSize, queue, old(counter.counts), env, ops);
              && r == o.result && channel.queue == o.queue && channel.taken == [] && counter.counts == o.counts
              && trace == before + o.ops
    {
      ghost var executed := QueryResult(generator.value, Batch(queue, batchSize), env);
      ghost var c := counter.counts;
      var eventList := TakeEventsFromChannel(batchSize, env);
      var n := Max0(batchSize);
      if eventList.Err? {
        var k := TakeFault(env, n).value;
        assert channel.taken + channel.queue == queue by {
          assert queue[..Min(k, |queue|)] + queue[Min(k, |queue|)..] == queue;
        }
        assert Connected(executed, batchSize, queue, c, env, ops)
            == Abort(eventList.error, ops + Takes(k), true, queue, counter.counts, env);
        r := Recover(eventList.error, true, env, before, ops + Takes(k), queue);
        return;
      }
      DrainIsPrefix(queue, n);
      assert Connected(executed, batchSize, queue, c, env, ops)
          == Drained(executed, batchSize, queue, counter.counts, env, ops + Takes(n));
      r := Deliver(eventList.value, env, before, ops + Takes(n), queue);
    }

    /** The try block of `process` once the drain gave `events`: the batch counter, the query
        and the database commit, then the channel commit. */
    method Deliver(events: seq<Event>, env: Environment, ghost before: seq<Op>, ghost ops: seq<Op>, ghost queue: seq<Event>) returns (r: Result<Status, Failure>)
      requires counter != null && generator.Some?
      requires events == Batch(queue, batchSize)
      requires channel.taken == events && channel.queue == queue[|events|..]
      requires trace == before + ops
      modifies this`trace, channel, counter
      ensures var o := Drained(QueryResult(generator.value, Batch(queue, batchSize), env), batchSize, queue, old(counter.counts), env, ops);
              && r == o.result && channel.queue == o.queue && channel.taken == [] && counter.counts == o.counts
              && trace == before + o.ops
    {
      assert channel.taken + channel.queue == queue;
      ghost var counted := Classified(old(counter.counts), |events|, batchSize);
      if events == [] {
        counter.IncrementBatchEmptyCount();
        r := Complete(0, env, before, ops, queue);
        return;
      }
      if |events| == batchSize {
        counter.IncrementBatchCompleteCount();
      } else {
        counter.IncrementBatchUnderflowCount();
      }
      assert counter.counts == counted;
      r := ExecuteAndCommit(events, env, before, ops, queue);
    }

    /** The query on the drained `events`, the database commit and the channel commit. */
    method ExecuteAndCommit(events: seq<Event>, env: Environment, ghost before: seq<Op>, ghost ops: seq<Op>, ghost queue: seq<Event>) returns (r: Result<Status, Failure>)
      requires counter != null && generator.Some?
      requires |events| <= |queue| && events == queue[..|events|]
      requires channel.taken == events && channel.queue == queue[|events|..]
      requires trace == before + ops
      modifies this`trace, channel, counter
      ensures var o := Queried(QueryResult(generator.value, events, env), queue, |events|, old(counter.counts), env, ops);
              && r == o.result && channel.queue == o.queue && channel.taken == [] && counter.counts == o.counts
              && trace == before + o.ops
    {
      assert channel.taken + channel.queue == queue;
      var success := Execute(events, env);
      if success.Err? {
        r := Recover(success.error, true, env, before, ops, queue);
        return;
      }
      trace := trace + [Query];
      if !success.value {
        r := Recover(QueryFailed, true, env, before, ops + [Query], queue);
        return;
      }
      if FaultAt(env, AtDbCommit) {
        r := Recover(FaultFailure(env), true, env, before, ops + [Query], queue);
        return;
      }
      trace := trace + [DbCommit];
      counter.AddToEventDrainSuccessCount(|events|);
      r := Complete(|events|, env, before, ops + [Query, DbCommit], queue);
    }

    /** `queryGenerator.executeQuery(create, eventList)`. */
    method Execute(events: seq<Event>, env: Environment) returns (success: Result<bool, Failure>)
      requires generator.Some?
      ensures success == QueryResult(generator.value, events, env)
    {
      match generator.value {
        case Mapped(g) =>
          var run := g.ExecuteQuery(events, env.db);
          success := if run.Ok? then Ok(run.value.success) else Err(run.error);
        case Templated(_, _) =>
          success := env.templateOutcome;
      }
    }

    /** `transaction.commit()` and the finally block, after `consumed` events were taken. */
    method Complete(consumed: nat, env: Environment, ghost before: seq<Op>, ghost ops: seq<Op>, ghost queue: seq<Event>) returns (r: Result<Status, Failure>)
      requires counter != null
      requires consumed <= |queue| && channel.taken == queue[..consumed] && channel.queue == queue[consumed..]
      requires trace == before + ops
      modifies this`trace, channel, counter
      ensures var o := Finish(ops, queue, consumed, old(counter.counts), env);
              && r == o.result && channel.queue == o.queue && channel.taken == [] && counter.counts == o.counts
              && trace == before + o.ops
    {
      if FaultAt(env, AtChannelCommit) {
        assert channel.taken + channel.queue == queue;
        r := Recover(FaultFailure(env), true, env, before, ops, queue);
        return;
      }
      channel.Commit();
      trace := trace + [CommitTx];
      // finally
      trace := trace + [CloseTx, CloseConnection];
      r := Ok(Ready);
    }

    /** The catch block after the throwable `f` (the database rollback, which is attempted
        only when there is a connection, the channel rollback, the counter, the rethrow of an
        Error) and the finally block. */
    method Recover(f: Failure, connected: bool, env: Environment, ghost before: seq<Op>, ghost ops: seq<Op>, ghost queue: seq<Event>) returns (r: Result<Status, Failure>)
      requires counter != null
      requires channel.taken + channel.queue == queue
      requires trace == before + ops
      modifies this`trace, channel, counter
      ensures var o := Abort(f, ops, connected, queue, old(counter.counts), env);
              && r == o.result && channel.queue == o.queue && channel.taken == [] && counter.counts == o.counts
              && trace == before + o.ops
    {
      if connected {
        trace := trace + [DbRollback(env.rollback.RollbackReturns?)];
      }
      channel.Rollback();
      trace := trace + [RollbackTx];
      counter.IncrementConnectionFailedCount();
      // finally
      trace := trace + [CloseTx];
      if connected {
        trace := trace + [CloseConnection];
      }
      if IsFatal(f) {
        return Err(SinkFatal);
      }
      if connected && env.rollback == RollbackThrows(true) {
        // the Error from connection.rollback(), pending since the inner finally
        return Err(CollaboratorFailure(true));
      }
      r := Ok(Backoff);
    }

    /** `configure`: initializes the pool, reads the batch size and the dialect, and chooses the
        generator: a mapping generator for the configured table (looked up in the `catalog` the
        database reports, through a connection that is closed again) when no `sql` is given, a
        template generator otherwise; `template` is what the template generator's constructor,
        which parses the `sql` template, does: return or throw. Each setting is assigned as
        soon as it is read, so a later failure leaves the earlier ones in place. */
    method Configure(context: Context, order: seq<string>, methods: seq<Method>, catalog: seq<Table>, borrowed: bool,
                     template: Result<(), Failure>) returns (r: Result<(), Failure>)
      requires KeyOrder(order, SubProperties(context, DbcpPrefix))
      modifies this, manager, manager.datasource
      ensures manager.datasource != null && fresh(manager.datasource) && !manager.datasource.closed
      ensures var required := !IsNullOrEmpty(Get(context, DriverKey)) && !IsNullOrEmpty(Get(context, ConnectionStringKey));
              && (required ==> manager.datasource.props == Configured(methods, context, order))
              && (!required ==> r == Err(DriverAndUrlRequired) && batchSize == old(batchSize))
              && (required && BatchSizeOf(context).Err? ==> r == Err(BatchSizeOf(context).error) && batchSize == old(batchSize))
              && (!required || BatchSizeOf(context).Err? ==> dialect == old(dialect) && trace == old(trace))
              && (required && BatchSizeOf(context).Ok? ==> batchSize == BatchSizeOf(context).value)
              && (required && BatchSizeOf(context).Ok? && DialectSetting(context).Err? ==>
                    r == Err(DialectSetting(context).error) && dialect == old(dialect) && trace == old(trace))
              && (required && BatchSizeOf(context).Ok? && DialectSetting(context).Ok? ==>
                    dialect == Some(DialectSetting(context).value))
              && (r.Ok? ==> required && BatchSizeOf(context).Ok? && DialectSetting(context).Ok?
                            && dialect == Some(DialectSetting(context).value))
      ensures r.Err? ==> generator == old(generator) && counter == old(counter)
      ensures r.Ok? && SqlKey in context ==> generator == Some(Templated(dialect.value, context[SqlKey])) && trace == old(trace)
      ensures r.Ok? && SqlKey !in context ==>
                && generator.Some? && generator.value.Mapped?
                && (exists i :: 0 <= i < |catalog| && generator.value.generator.table == catalog[i]
                                && Named(catalog[i], Get(context, TableKey))
                                && forall j :: 0 <= j < i ==> !Named(catalog[j], Get(context, TableKey)))
                && trace == old(trace) + [Borrow, CloseConnection]
      ensures r.Ok? ==> counter != null && fresh(counter) && counter.counts == Zero
      ensures var required := !IsNullOrEmpty(Get(context, DriverKey)) && !IsNullOrEmpty(Get(context, ConnectionStringKey));
              required && BatchSizeOf(context).Ok? && DialectSetting(context).Ok? && SqlKey !in context ==>
                && (!borrowed ==> r == Err(PoolFailure) && trace == old(trace))
                && (borrowed ==> (r.Err? <==> forall j :: 0 <= j < |catalog| ==> !Named(catalog[j], Get(context, TableKey))))
                && (borrowed && r.Err? ==> r == Err(TableNotFound(Get(context, TableKey))))
                && (borrowed ==> trace == old(trace) + [Borrow, CloseConnection])
      ensures var required := !IsNullOrEmpty(Get(context, DriverKey)) && !IsNullOrEmpty(Get(context, ConnectionStringKey));
              required && BatchSizeOf(context).Ok? && DialectSetting(context).Ok? && SqlKey in context ==>
                && (r.Ok? <==> template.Ok?)
                && (template.Err? ==> r == Err(template.error))
                && trace == old(trace)
    {
      var initialized := manager.Initialize(context, order, methods);
      if initialized.Err? {
        return Err(initialized.error);
      }
      var size := BatchSizeOf(context);
      if size.Err? {
        return Err(size.error);
      }
      batchSize := size.value;
      var d := DialectSetting(context);
      if d.Err? {
        return Err(d.error);
      }
      dialect := Some(d.value);
      r := ChooseGenerator(context, d.value, catalog, borrowed, template);
    }

    /** The end of `configure` once the dialect `d` is known: the generator and the counter. */
    method ChooseGenerator(context: Context, d: Dialect, catalog: seq<Table>, borrowed: bool, template: Result<(), Failure>)
      returns (r: Result<(), Failure>)
      requires manager.datasource != null && !manager.datasource.closed
      modifies this`generator, this`trace, this`counter
      ensures r.Err? ==> generator == old(generator) && counter == old(counter)
      ensures SqlKey in context ==>
                && (r.Ok? <==> template.Ok?)
                && (template.Err? ==> r == Err(template.error))
                && (r.Ok? ==> generator == Some(Templated(d, context[SqlKey])))
                && trace == old(trace)
      ensures SqlKey !in context ==>
                && (!borrowed ==> r == Err(PoolFailure) && trace == old(trace))
                && (borrowed ==> (r.Err? <==> forall j :: 0 <= j < |catalog| ==> !Named(catalog[j], Get(context, TableKey))))
                && (borrowed && r.Err? ==> r == Err(TableNotFound(Get(context, TableKey))))
                && (borrowed ==> trace == old(trace) + [Borrow, CloseConnection])
                && (r.Ok? ==>
                      && generator.Some? && generator.value.Mapped?
                      && (exists i :: 0 <= i < |catalog| && generator.value.generator.table == catalog[i]
                                      && Named(catalog[i], Get(context, TableKey))
                                      && forall j :: 0 <= j < i ==> !Named(catalog[j], Get(context, TableKey)))
                      && trace == old(trace) + [Borrow, CloseConnection])
      ensures r.Ok? ==> counter != null && fresh(counter) && counter.counts == Zero
    {
      if SqlKey !in context {
        var connection := manager.GetConnection(borrowed);
        if connection.Err? {
          return Err(connection.error);
        }
        trace := trace + [Borrow];
        var g := MappingQueryGenerator.Create(catalog, Get(context, TableKey));
        // finally: JDBCUtils.safeClose(connection)
        trace := trace + [CloseConnection];
        if g.Err? {
          return Err(g.error);
        }
        generator := Some(Mapped(g.value));
      } else {
        if template.Err? {
          return Err(template.error);
        }
        generator := Some(Templated(d, context[SqlKey]));
      }
      counter := new SinkCounter();
      r := Ok(());
    }
  }
}
