/** receiver/sqlqueryreceiver/config.go: validation of the SQL receiver's
    configuration. A Go error is a list of error values here: the empty
    list is nil, and `multierr.Append` is concatenation. */
module SqlConfig {
  import opened Common

  datatype SqlError = EmptyDriver | EmptyDataSource | NoQueries | EmptySQL | NoLogs | EmptyBodyColumn

  datatype LogsCfg = LogsCfg(bodyColumn: string)
  datatype Query = Query(sql: string, logs: seq<LogsCfg>)
  datatype Config = Config(driver: string, dataSource: string, queries: seq<Query>)

  /** `LogsCfg.Validate`. */
  function ValidateLogsCfg(c: LogsCfg): (err: Option<SqlError>)
    ensures err.None? <==> c.bodyColumn != []
    ensures err.Some? ==> err.value == EmptyBodyColumn
  {
    if c.bodyColumn == "" then Some(EmptyBodyColumn) else None
  }

  /** The errors of the log configurations `logs`, in order. */
  function LogsErrors(logs: seq<LogsCfg>): seq<SqlError>
  {
    if logs == [] then []
    else
      var err := ValidateLogsCfg(logs[|logs| - 1]);
      if err.None? then LogsErrors(logs[..|logs| - 1]) else LogsErrors(logs[..|logs| - 1]) + [err.value]
  }

  /** The log configurations are all valid exactly when none reports an
      error, and they report nothing but missing body columns. */
  lemma {:induction false} LogsErrorsSpec(logs: seq<LogsCfg>)
    ensures LogsErrors(logs) == [] <==> forall l | l in logs :: l.bodyColumn != []
    ensures forall e | e in LogsErrors(logs) :: e == EmptyBodyColumn
  {
    if logs != [] {
      var n := |logs| - 1;
      LogsErrorsSpec(logs[..n]);
      assert logs == logs[..n] + [logs[n]];
    }
  }

  /** `Query.Validate`, as a value: every problem is collected. */
  function QueryErrors(q: Query): seq<SqlError>
  {
    (if q.sql == "" then [EmptySQL] else [])
    + (if q.logs == [] then [NoLogs] else [])
    + LogsErrors(q.logs)
  }

  /** `Config.Validate`, as a value: the first problem found, in order. */
  function ConfigErrors(c: Config): seq<SqlError>
  {
    if c.driver == "" then [EmptyDriver]
    else if c.dataSource == "" then [EmptyDataSource]
    else if c.queries == [] then [NoQueries]
    else FirstErrors(c.queries, QueryErrors)
  }

  /** The errors of the first element of `xs` that has any, or none. */
  function FirstErrors<T>(xs: seq<T>, errorsOf: T -> seq<SqlError>): seq<SqlError>
  {
    if xs == [] then []
    else if errorsOf(xs[0]) != [] then errorsOf(xs[0])
    else FirstErrors(xs[1..], errorsOf)
  }

  /** A query is valid exactly when it has SQL, at least one log
      configuration, and every log configuration names its body column. */
  lemma QueryValidIff(q: Query)
    ensures QueryErrors(q) == [] <==> q.sql != [] && q.logs != [] && forall l | l in q.logs :: l.bodyColumn != []
  {
    LogsErrorsSpec(q.logs);
  }

  /** The problems of a query come in order: missing SQL first, then
      missing logs, then the log configurations' own. */
  lemma QueryErrorsOrder(q: Query)
    ensures q.sql == [] <==> |QueryErrors(q)| > 0 && QueryErrors(q)[0] == EmptySQL
    ensures q.logs == [] <==> NoLogs in QueryErrors(q)
    ensures |QueryErrors(q)| <= 2 + |q.logs|
  {
    LogsErrorsBound(q.logs);
    LogsErrorsSpec(q.logs);
    var tail := (if q.logs == [] then [NoLogs] else []) + LogsErrors(q.logs);
    assert EmptySQL !in tail;
    if q.sql == [] {
      assert QueryErrors(q) == [EmptySQL] + tail;
    } else {
      assert QueryErrors(q) == tail;
      if tail != [] {
        assert tail[0] in tail;
      }
    }
  }

  lemma {:induction false} LogsErrorsBound(logs: seq<LogsCfg>)
    ensures |LogsErrors(logs)| <= |logs|
  {
    if logs != [] {
      LogsErrorsBound(logs[..|logs| - 1]);
    }
  }

  lemma LogsErrorsNext(logs: seq<LogsCfg>, i: nat)
    requires i < |logs|
    ensures var err := ValidateLogsCfg(logs[i]);
            LogsErrors(logs[..i + 1]) == if err.None? then LogsErrors(logs[..i]) else LogsErrors(logs[..i]) + [err.value]
  {
    assert logs[..i + 1][..i] == logs[..i];
  }

  /** `FirstErrors` is empty exactly when no element has errors, and
      otherwise it is the errors of the first element that has some. */
  lemma {:induction false} FirstErrorsSpec<T>(xs: seq<T>, errorsOf: T -> seq<SqlError>)
    ensures FirstErrors(xs, errorsOf) == [] <==> forall i | 0 <= i < |xs| :: errorsOf(xs[i]) == []
    ensures FirstErrors(xs, errorsOf) != [] ==>
              exists k | 0 <= k < |xs| :: FirstErrors(xs, errorsOf) == errorsOf(xs[k])
                                         && forall j | 0 <= j < k :: errorsOf(xs[j]) == []
  {
    if xs != [] {
      FirstErrorsSpec(xs[1..], errorsOf);
      if errorsOf(xs[0]) == [] {
        forall i | 0 < i < |xs|
          ensures xs[i] == xs[1..][i - 1]
        {
        }
        if FirstErrors(xs[1..], errorsOf) != [] {
          var k :| 0 <= k < |xs[1..]| && FirstErrors(xs[1..], errorsOf) == errorsOf(xs[1..][k])
                   && forall j | 0 <= j < k :: errorsOf(xs[1..][j]) == [];
          assert FirstErrors(xs, errorsOf) == errorsOf(xs[k + 1]);
        }
      }
    }
  }

  /** The checks of `Config.Validate` come in order: the driver, then the
      data source, then the presence of queries, then each query. */
  lemma ConfigValidOrder(c: Config)
    ensures c.driver == [] ==> ConfigErrors(c) == [EmptyDriver]
    ensures c.driver != [] && c.dataSource == [] ==> ConfigErrors(c) == [EmptyDataSource]
    ensures c.driver != [] && c.dataSource != [] && c.queries == [] ==> ConfigErrors(c) == [NoQueries]
    ensures ConfigErrors(c) == [] <==>
              c.driver != [] && c.dataSource != [] && c.queries != []
              && forall i | 0 <= i < |c.queries| :: QueryErrors(c.queries[i]) == []
  {
    FirstErrorsSpec(c.queries, QueryErrors);
  }

  /** `Query.Validate`: the loop over the log configurations appends each
      one's error. */
  method ValidateQuery(q: Query) returns (errs: seq<SqlError>)
    ensures errs == QueryErrors(q)
  {
    errs := [];
    if q.sql == "" {
      errs := errs + [EmptySQL];
    }
    if |q.logs| == 0 {
      errs := errs + [NoLogs];
    }
    ghost var head := errs;
    assert q.logs[..0] == [] && head + [] == head;
    var i := 0;
    while i < |q.logs|
      invariant 0 <= i <= |q.logs|
      invariant errs == head + LogsErrors(q.logs[..i])
    {
      LogsErrorsNext(q.logs, i);
      var e := ValidateLogsCfg(q.logs[i]);
      if e.Some? {
        errs := errs + [e.value];
      }
      i := i + 1;
    }
    assert q.logs[..i] == q.logs;
  }

  /** `Config.Validate`: the fixed checks, then the first failing query. */
  method ValidateConfig(c: Config) returns (errs: seq<SqlError>)
    ensures errs == ConfigErrors(c)
  {
    if c.driver == "" {
      return [EmptyDriver];
    }
    if c.dataSource == "" {
      return [EmptyDataSource];
    }
    if |c.queries| == 0 {
      return [NoQueries];
    }
    var i := 0;
    while i < |c.queries|
      invariant 0 <= i <= |c.queries|
      invariant FirstErrors(c.queries, QueryErrors) == FirstErrors(c.queries[i..], QueryErrors)
    {
      var e := ValidateQuery(c.queries[i]);
      if e != [] {
        return e;
      }
      assert c.queries[i..][1..] == c.queries[i + 1..];
      i := i + 1;
    }
    return [];
  }
}
