/**
 * The schema manager of src/podflix/db/db_manager.py and its two callers,
 * src/podflix/db/init_db.py and src/podflix/db/drop_db.py.  The database is
 * abstract: each connection attempt is described by a `Session` that says
 * whether connecting fails, what the table query yields and which statements fail.
 */
module DbManager {
  import opened Wrappers
  import opened Strings
  import DbFactory

  // ---------------------------------------------------------------------------
  // Reading a SQL file

  /** The statements kept from the pieces between semicolons: stripped, blank ones dropped. */
  function StrippedStatements(pieces: seq<string>): seq<string>
    decreases |pieces|
  {
    if pieces == [] then []
    else
      var init := StrippedStatements(pieces[..|pieces| - 1]);
      var x := Strip(pieces[|pieces| - 1]);
      if x != "" then init + [x] else init
  }

  /** `read_sql_file` applied to the file's text. */
  function ReadSqlFile(text: string): seq<string> {
    StrippedStatements(Split(text, ";"))
  }

  /** What every returned statement is: non-empty, without `;`, without surrounding whitespace. */
  predicate IsStatement(s: string) {
    s != "" && ';' !in s && !IsSpace(s[0]) && !IsSpace(s[|s| - 1])
  }

  lemma NoSemicolon(p: string)
    requires !Contains(p, ";")
    ensures ';' !in p
  {
    if ';' in p {
      var j :| 0 <= j < |p| && p[j] == ';';
      assert p[j..j + 1] == ";";
      IndexOfFirst(p, ";", j);
    }
  }

  lemma StrippedPieceIsStatement(p: string)
    requires ';' !in p && Strip(p) != ""
    ensures IsStatement(Strip(p))
  {
    var a, b := StripSlice(p);
    StripEnds(p);
    assert forall c :: c in p[a..b] ==> c in p;
  }

  lemma {:induction false} StrippedStatementsAre(pieces: seq<string>)
    requires forall k :: 0 <= k < |pieces| ==> ';' !in pieces[k]
    ensures forall k :: 0 <= k < |StrippedStatements(pieces)| ==> IsStatement(StrippedStatements(pieces)[k])
    decreases |pieces|
  {
    if pieces != [] {
      var init := pieces[..|pieces| - 1];
      assert forall k :: 0 <= k < |init| ==> init[k] == pieces[k];
      StrippedStatementsAre(init);
      var p := pieces[|pieces| - 1];
      if Strip(p) != "" {
        StrippedPieceIsStatement(p);
      }
    }
  }

  /** No returned statement is empty, contains `;` or has leading or trailing whitespace. */
  lemma ReadSqlFileStatements(text: string)
    ensures forall k :: 0 <= k < |ReadSqlFile(text)| ==> IsStatement(ReadSqlFile(text)[k])
  {
    var pieces := Split(text, ";");
    SplitPiecesFree(text, ";");
    forall k | 0 <= k < |pieces| ensures ';' !in pieces[k] {
      NoSemicolon(pieces[k]);
    }
    StrippedStatementsAre(pieces);
  }

  lemma {:induction false} StrippedStatementsKeep(xs: seq<string>)
    requires forall k :: 0 <= k < |xs| ==> IsStatement(xs[k])
    ensures StrippedStatements(xs) == xs
    decreases |xs|
  {
    if xs != [] {
      var init := xs[..|xs| - 1];
      assert forall k :: 0 <= k < |init| ==> init[k] == xs[k];
      StrippedStatementsKeep(init);
      var x := xs[|xs| - 1];
      assert IsStatement(x);
      StripUnchanged(x);
      assert init + [x] == xs;
    }
  }

  /**
   * Statements joined with `;` are read back as the same statements in the same
   * order: splitting keeps the file order and loses nothing else.
   */
  lemma ReadSqlFileJoin(stmts: seq<string>)
    requires |stmts| >= 1
    requires forall k :: 0 <= k < |stmts| ==> IsStatement(stmts[k])
    ensures ReadSqlFile(Join(stmts, ";")) == stmts
  {
    SplitJoin(stmts, ';');
    StrippedStatementsKeep(stmts);
  }

  /** A file without `;` holds one statement, its stripped text, unless it is blank. */
  lemma ReadSqlFileSingle(text: string)
    requires ';' !in text
    ensures ReadSqlFile(text) == if Strip(text) == "" then [] else [Strip(text)]
  {
    NoCharNoOccurrence(text, ';');
    SplitCount(text, ";");
    var pieces := Split(text, ";");
    assert pieces == [text] && pieces[..0] == [];
    assert StrippedStatements(pieces) == if Strip(text) != "" then [] + [Strip(text)] else [];
  }

  // ---------------------------------------------------------------------------
  // The database, abstractly

  datatype DbError = OperationalError | ProgrammingError | OtherError(name: string)

  /** What `.scalar()` returns: a count from SQLite, a boolean from PostgreSQL, or nothing. */
  datatype ScalarValue = IntScalar(i: int) | BoolScalar(b: bool) | NoScalar

  datatype QueryOutcome = Scalar(value: ScalarValue) | QueryRaised(error: DbError)

  /** The two users-table queries. */
  datatype TableQuery = SqliteMasterCount | InformationSchemaExists

  /** One connection: whether opening it fails, what each query yields, which statements fail and whether commit fails. */
  datatype Session = Session(
    connectError: Option<DbError>,
    query: TableQuery -> QueryOutcome,
    execute: string -> Option<DbError>,
    commitError: Option<DbError>)

  /** The query `table_exists` sends for the configured database type. */
  function TableQueryFor(dbType: string): TableQuery {
    if dbType == "sqlite" then SqliteMasterCount else InformationSchemaExists
  }

  /** Python's `bool()` of the scalar. */
  predicate Truthy(v: ScalarValue) {
    match v
    case IntScalar(i) => i != 0
    case BoolScalar(b) => b
    case NoScalar => false
  }

  /** `table_exists`: the truth of the query result; connection and query errors count as no table. */
  function TableExists(dbType: string, s: Session): Result<bool, DbError> {
    match s.query(TableQueryFor(dbType))
    case Scalar(v) => Success(Truthy(v))
    case QueryRaised(e) =>
      if e == OperationalError || e == ProgrammingError then Success(false) else Failure(e)
  }

  /** Only errors other than the two database errors escape `table_exists`. */
  lemma TableExistsIff(dbType: string, s: Session)
    ensures TableExists(dbType, s).Failure? <==>
      s.query(TableQueryFor(dbType)).QueryRaised? && s.query(TableQueryFor(dbType)).error.OtherError?
    ensures TableExists(dbType, s) == Success(true) <==>
      s.query(TableQueryFor(dbType)).Scalar? && Truthy(s.query(TableQueryFor(dbType)).value)
  {
  }

  // ---------------------------------------------------------------------------
  // One attempt of `execute_sql_file`

  /** What the database is sent, in order. */
  datatype Action = Executed(stmt: string) | Committed

  datatype Outcome =
    | AlreadyInitialized
    | NothingToDrop
    | Completed
    | Raised(error: DbError)
    | RetriesExhausted

  datatype RunResult = RunResult(ran: seq<string>, error: Option<DbError>)

  /** The statements sent, one after the other, until one fails; the failing one is included. */
  function RunStatements(stmts: seq<string>, execute: string -> Option<DbError>): RunResult
    decreases |stmts|
  {
    if stmts == [] then RunResult([], None)
    else
      var r := RunStatements(stmts[..|stmts| - 1], execute);
      if r.error.Some? then r
      else RunResult(r.ran + [stmts[|stmts| - 1]], execute(stmts[|stmts| - 1]))
  }

  function ExecutedAll(stmts: seq<string>): seq<Action>
    decreases |stmts|
  {
    if stmts == [] then [] else ExecutedAll(stmts[..|stmts| - 1]) + [Executed(stmts[|stmts| - 1])]
  }

  datatype AttemptResult = AttemptResult(actions: seq<Action>, outcome: Outcome)

  /** The statement loop and the commit: what is sent and how the attempt ends. */
  function RunAndCommit(s: Session, stmts: seq<string>): AttemptResult {
    var r := RunStatements(stmts, s.execute);
    if r.error.Some? then AttemptResult(ExecutedAll(r.ran), Raised(r.error.value))
    else if s.commitError.Some? then AttemptResult(ExecutedAll(r.ran), Raised(s.commitError.value))
    else AttemptResult(ExecutedAll(r.ran) + [Committed], Completed)
  }

  /** One run of the body of `execute_sql_file` on one connection. */
  function Attempt(dbType: string, s: Session, text: string, checkExists: bool): AttemptResult {
    if s.connectError.Some? then AttemptResult([], Raised(s.connectError.value))
    else
      match TableExists(dbType, s)
      case Failure(e) => AttemptResult([], Raised(e))
      case Success(present) =>
        if checkExists && present then AttemptResult([], AlreadyInitialized)
        else if !checkExists && !present then AttemptResult([], NothingToDrop)
        else RunAndCommit(s, ReadSqlFile(text))
  }

  /** One more statement that succeeds extends a successful run. */
  lemma RunStatementsStep(stmts: seq<string>, execute: string -> Option<DbError>, i: nat)
    requires i < |stmts| && RunStatements(stmts[..i], execute) == RunResult(stmts[..i], None)
    ensures RunStatements(stmts[..i + 1], execute) == RunResult(stmts[..i + 1], execute(stmts[i]))
  {
    assert stmts[..i + 1][..i] == stmts[..i];
    assert stmts[..i] + [stmts[i]] == stmts[..i + 1];
  }

  lemma ExecutedAllStep(stmts: seq<string>, i: nat)
    requires i < |stmts|
    ensures ExecutedAll(stmts[..i + 1]) == ExecutedAll(stmts[..i]) + [Executed(stmts[i])]
  {
    assert stmts[..i + 1][..i] == stmts[..i];
  }

  lemma {:induction false} RunStatementsAll(stmts: seq<string>, execute: string -> Option<DbError>)
    requires forall k :: 0 <= k < |stmts| ==> execute(stmts[k]).None?
    ensures RunStatements(stmts, execute) == RunResult(stmts, None)
    decreases |stmts|
  {
    if stmts != [] {
      var init := stmts[..|stmts| - 1];
      assert forall k :: 0 <= k < |init| ==> init[k] == stmts[k];
      RunStatementsAll(init, execute);
      assert init + [stmts[|stmts| - 1]] == stmts;
    }
  }

  /** Once a prefix of the statements has failed, the later statements change nothing. */
  lemma {:induction false} RunStatementsErrorSticks(stmts: seq<string>, execute: string -> Option<DbError>, n: nat)
    requires n <= |stmts| && RunStatements(stmts[..n], execute).error.Some?
    ensures RunStatements(stmts, execute) == RunStatements(stmts[..n], execute)
    decreases |stmts|
  {
    if n < |stmts| {
      var init := stmts[..|stmts| - 1];
      assert init[..n] == stmts[..n];
      RunStatementsErrorSticks(init, execute, n);
    } else {
      assert stmts[..n] == stmts;
    }
  }

  /** A failure stops the run: it ran the statements up to `n` in order, and `n` failed. */
  lemma RunStatementsStops(stmts: seq<string>, execute: string -> Option<DbError>, n: nat)
    requires n < |stmts| && execute(stmts[n]).Some?
    requires forall k :: 0 <= k < n ==> execute(stmts[k]).None?
    ensures RunStatements(stmts, execute) == RunResult(stmts[..n + 1], execute(stmts[n]))
  {
    var pre := stmts[..n];
    assert forall k :: 0 <= k < n ==> pre[k] == stmts[k];
    RunStatementsAll(pre, execute);
    RunStatementsStep(stmts, execute, n);
    assert stmts[..n + 1][..n + 1] == stmts[..n + 1];
    RunStatementsErrorSticks(stmts, execute, n + 1);
  }

  /** With `check_exists` and the table present, nothing is executed or committed. */
  lemma SkipWhenInitialized(dbType: string, s: Session, text: string)
    requires s.connectError.None? && TableExists(dbType, s) == Success(true)
    ensures Attempt(dbType, s, text, true) == AttemptResult([], AlreadyInitialized)
  {
  }

  /** Without `check_exists` and with no table, nothing is executed or committed. */
  lemma SkipWhenNothingToDrop(dbType: string, s: Session, text: string)
    requires s.connectError.None? && TableExists(dbType, s) == Success(false)
    ensures Attempt(dbType, s, text, false) == AttemptResult([], NothingToDrop)
  {
  }

  /** When every statement succeeds, all run in file order and one commit follows them. */
  lemma AttemptCompletes(dbType: string, s: Session, text: string, checkExists: bool)
    requires s.connectError.None? && s.commitError.None?
    requires TableExists(dbType, s).Success? && TableExists(dbType, s).value != checkExists
    requires forall k :: 0 <= k < |ReadSqlFile(text)| ==> s.execute(ReadSqlFile(text)[k]).None?
    ensures Attempt(dbType, s, text, checkExists) == AttemptResult(ExecutedAll(ReadSqlFile(text)) + [Committed], Completed)
  {
    RunStatementsAll(ReadSqlFile(text), s.execute);
  }

  /** A failing statement is raised at once: later statements never run and nothing is committed. */
  lemma AttemptStopsAtFailure(dbType: string, s: Session, text: string, checkExists: bool, n: nat)
    requires s.connectError.None?
    requires TableExists(dbType, s).Success? && TableExists(dbType, s).value != checkExists
    requires n < |ReadSqlFile(text)| && s.execute(ReadSqlFile(text)[n]).Some?
    requires forall k :: 0 <= k < n ==> s.execute(ReadSqlFile(text)[k]).None?
    ensures Attempt(dbType, s, text, checkExists)
      == AttemptResult(ExecutedAll(ReadSqlFile(text)[..n + 1]), Raised(s.execute(ReadSqlFile(text)[n]).value))
  {
    RunStatementsStops(ReadSqlFile(text), s.execute, n);
  }

  function CommitCount(actions: seq<Action>): nat
    decreases |actions|
  {
    if actions == [] then 0
    else CommitCount(actions[..|actions| - 1]) + (if actions[|actions| - 1] == Committed then 1 else 0)
  }

  lemma {:induction false} CommitCountAppend(a: seq<Action>, b: seq<Action>)
    ensures CommitCount(a + b) == CommitCount(a) + CommitCount(b)
    decreases |b|
  {
    if b == [] {
      assert a + b == a;
    } else {
      CommitCountAppend(a, b[..|b| - 1]);
      assert (a + b)[..|a + b| - 1] == a + b[..|b| - 1];
    }
  }

  lemma {:induction false} NoCommitInExecuted(stmts: seq<string>)
    ensures CommitCount(ExecutedAll(stmts)) == 0
    decreases |stmts|
  {
    if stmts != [] {
      NoCommitInExecuted(stmts[..|stmts| - 1]);
    }
  }

  lemma RunAndCommitCommits(s: Session, stmts: seq<string>)
    ensures CommitCount(RunAndCommit(s, stmts).actions) == if RunAndCommit(s, stmts).outcome == Completed then 1 else 0
  {
    var ran := RunStatements(stmts, s.execute).ran;
    NoCommitInExecuted(ran);
    var e := ExecutedAll(ran);
    assert (e + [Committed])[..|e|] == e;
  }

  /** An attempt commits once if it completes and never otherwise. */
  lemma AttemptCommits(dbType: string, s: Session, text: string, checkExists: bool)
    ensures var a := Attempt(dbType, s, text, checkExists);
      CommitCount(a.actions) == if a.outcome == Completed then 1 else 0
  {
    var a := Attempt(dbType, s, text, checkExists);
    var stmts := ReadSqlFile(text);
    if s.connectError.None? && TableExists(dbType, s).Success?
      && !(checkExists && TableExists(dbType, s).value) && !(!checkExists && !TableExists(dbType, s).value)
    {
      assert a == RunAndCommit(s, stmts);
      RunAndCommitCommits(s, stmts);
    } else {
      assert a.actions == [] && a.outcome != Completed;
    }
  }

  // ---------------------------------------------------------------------------
  // Retries

  /** Attempts are numbered from 1; tenacity stops after the third. */
  const MaxAttempts := 3

  /**
   * The outcome of the attempts from `attempt` on, where `attempts(n)` is what
   * attempt `n` does: only an `OperationalError` is retried, and after the third
   * the retrying gives up.
   */
  function Retrying(attempts: nat -> AttemptResult, attempt: nat): AttemptResult
    requires 1 <= attempt <= MaxAttempts
    decreases MaxAttempts - attempt
  {
    var a := attempts(attempt);
    if a.outcome == Raised(OperationalError) then
      if attempt < MaxAttempts then
        var rest := Retrying(attempts, attempt + 1);
        AttemptResult(a.actions + rest.actions, rest.outcome)
      else AttemptResult(a.actions, RetriesExhausted)
    else a
  }

  /** What the attempts after `attempt` send, when `attempt` is retried. */
  function LaterActions(attempts: nat -> AttemptResult, attempt: nat): seq<Action>
    requires 1 <= attempt <= MaxAttempts
  {
    if attempts(attempt).outcome == Raised(OperationalError) && attempt < MaxAttempts
    then Retrying(attempts, attempt + 1).actions
    else []
  }

  /** One attempt followed by the later ones: the actions concatenate and the last attempt decides. */
  lemma RetryingUnfold(attempts: nat -> AttemptResult, attempt: nat)
    requires 1 <= attempt <= MaxAttempts
    ensures Retrying(attempts, attempt).actions == attempts(attempt).actions + LaterActions(attempts, attempt)
    ensures var o := attempts(attempt).outcome;
      Retrying(attempts, attempt).outcome
        == if o != Raised(OperationalError) then o
           else if attempt < MaxAttempts then Retrying(attempts, attempt + 1).outcome
           else RetriesExhausted
  {
    var a := attempts(attempt);
    if !(a.outcome == Raised(OperationalError) && attempt < MaxAttempts) {
      assert a.actions + [] == a.actions;
    }
  }

  /** A retried attempt: its actions, then those of the attempts after it; the later attempts decide. */
  lemma RetriedActions(attempts: nat -> AttemptResult, attempt: nat, before: seq<Action>, mid: seq<Action>, after: seq<Action>)
    requires 1 <= attempt < MaxAttempts && attempts(attempt).outcome == Raised(OperationalError)
    requires mid == before + attempts(attempt).actions
    requires after == mid + Retrying(attempts, attempt + 1).actions
    ensures after == before + Retrying(attempts, attempt).actions
    ensures Retrying(attempts, attempt).outcome == Retrying(attempts, attempt + 1).outcome
  {
    var x, y := attempts(attempt).actions, Retrying(attempts, attempt + 1).actions;
    assert (before + x) + y == before + (x + y);
  }

  /** Only attempts 1 to 3 matter: two environments that agree on them give the same result. */
  lemma {:induction false} RetryingBounded(a1: nat -> AttemptResult, a2: nat -> AttemptResult, attempt: nat)
    requires 1 <= attempt <= MaxAttempts
    requires forall n :: attempt <= n <= MaxAttempts ==> a1(n) == a2(n)
    ensures Retrying(a1, attempt) == Retrying(a2, attempt)
    decreases MaxAttempts - attempt
  {
    assert a1(attempt) == a2(attempt);
    if attempt < MaxAttempts {
      RetryingBounded(a1, a2, attempt + 1);
    }
  }

  /** The retrying gives up exactly when every attempt from `attempt` to the third raised an `OperationalError`. */
  lemma {:induction false} RetryingExhaustedIff(attempts: nat -> AttemptResult, attempt: nat)
    requires 1 <= attempt <= MaxAttempts
    requires forall n :: attempt <= n <= MaxAttempts ==> attempts(n).outcome != RetriesExhausted
    ensures Retrying(attempts, attempt).outcome == RetriesExhausted <==>
      forall n :: attempt <= n <= MaxAttempts ==> attempts(n).outcome == Raised(OperationalError)
    decreases MaxAttempts - attempt
  {
    if attempt < MaxAttempts {
      RetryingExhaustedIff(attempts, attempt + 1);
    }
  }

  /** An attempt's outcome is never the retry's own give-up. */
  predicate CommitsIfCompleted(a: AttemptResult) {
    a.outcome != RetriesExhausted && CommitCount(a.actions) == if a.outcome == Completed then 1 else 0
  }

  /** If every attempt commits once exactly when it completes, so does the whole retrying run. */
  lemma {:induction false} RetryingCommitsOnce(attempts: nat -> AttemptResult, attempt: nat)
    requires 1 <= attempt <= MaxAttempts
    requires forall n :: attempt <= n <= MaxAttempts ==> CommitsIfCompleted(attempts(n))
    ensures CommitCount(Retrying(attempts, attempt).actions) == if Retrying(attempts, attempt).outcome == Completed then 1 else 0
    decreases MaxAttempts - attempt
  {
    var a := attempts(attempt);
    assert CommitsIfCompleted(a);
    if a.outcome == Raised(OperationalError) && attempt < MaxAttempts {
      var rest := Retrying(attempts, attempt + 1);
      RetryingCommitsOnce(attempts, attempt + 1);
      CommitCountAppend(a.actions, rest.actions);
    }
  }

  lemma AttemptNeverGivesUp(dbType: string, s: Session, text: string, checkExists: bool)
    ensures Attempt(dbType, s, text, checkExists).outcome != RetriesExhausted
  {
  }

  /** What each numbered attempt of `execute_sql_file` does. */
  function AttemptsOf(dbType: string, sessions: nat -> Session, text: string, checkExists: bool): nat -> AttemptResult {
    (n: nat) => Attempt(dbType, sessions(n), text, checkExists)
  }

  /** The whole of `execute_sql_file`. */
  function ExecuteSqlFileSpec(dbType: string, sessions: nat -> Session, text: string, checkExists: bool): AttemptResult {
    Retrying(AttemptsOf(dbType, sessions, text, checkExists), 1)
  }

  /** The first attempt decides unless it raised an `OperationalError`: other errors are not retried. */
  lemma ExecuteNoRetry(dbType: string, sessions: nat -> Session, text: string, checkExists: bool)
    requires Attempt(dbType, sessions(1), text, checkExists).outcome != Raised(OperationalError)
    ensures ExecuteSqlFileSpec(dbType, sessions, text, checkExists) == Attempt(dbType, sessions(1), text, checkExists)
  {
  }

  /** Only connections 1 to 3 are ever opened: environments that agree on them give the same run. */
  lemma ExecuteBounded(dbType: string, s1: nat -> Session, s2: nat -> Session, text: string, checkExists: bool)
    requires s1(1) == s2(1) && s1(2) == s2(2) && s1(3) == s2(3)
    ensures ExecuteSqlFileSpec(dbType, s1, text, checkExists) == ExecuteSqlFileSpec(dbType, s2, text, checkExists)
  {
    var a1, a2 := AttemptsOf(dbType, s1, text, checkExists), AttemptsOf(dbType, s2, text, checkExists);
    assert forall n :: 1 <= n <= MaxAttempts ==> a1(n) == a2(n) by {
      forall n | 1 <= n <= MaxAttempts ensures a1(n) == a2(n) {
        assert s1(n) == s2(n) by { assert n == 1 || n == 2 || n == 3; }
      }
    }
    RetryingBounded(a1, a2, 1);
  }

  /** `execute_sql_file` gives up exactly when all three attempts raised an `OperationalError`. */
  lemma ExecuteExhaustedIff(dbType: string, sessions: nat -> Session, text: string, checkExists: bool)
    ensures ExecuteSqlFileSpec(dbType, sessions, text, checkExists).outcome == RetriesExhausted <==>
      forall n :: 1 <= n <= MaxAttempts ==> Attempt(dbType, sessions(n), text, checkExists).outcome == Raised(OperationalError)
  {
    forall n | 1 <= n <= MaxAttempts
      ensures AttemptsOf(dbType, sessions, text, checkExists)(n).outcome != RetriesExhausted
    {
      AttemptNeverGivesUp(dbType, sessions(n), text, checkExists);
    }
    RetryingExhaustedIff(AttemptsOf(dbType, sessions, text, checkExists), 1);
  }

  /** Across all attempts the database is committed at most once, and exactly once when the run completes. */
  lemma ExecuteCommitsOnce(dbType: string, sessions: nat -> Session, text: string, checkExists: bool)
    ensures var r := ExecuteSqlFileSpec(dbType, sessions, text, checkExists);
      CommitCount(r.actions) == if r.outcome == Completed then 1 else 0
  {
    var attempts := AttemptsOf(dbType, sessions, text, checkExists);
    forall n | 1 <= n <= MaxAttempts ensures CommitsIfCompleted(attempts(n)) {
      AttemptCommits(dbType, sessions(n), text, checkExists);
    }
    RetryingCommitsOnce(attempts, 1);
  }

  // ---------------------------------------------------------------------------
  // The manager

  class DatabaseManager {
    /** Stored and never read: the retry bound is the decorator's. */
    const maxRetries: int
    const retryDelay: int
    /** The synchronous URL the engine is created on. */
    const engineUrl: string
    /** The configured database type, which picks the table query. */
    const dbType: string
    /** The connection each attempt opens, numbered from 1. */
    const sessions: nat -> Session
    /** Everything sent to the database so far. */
    var sent: seq<Action>

    /** `__init__`: the engine is created on the factory interface's synchronous URL. */
    constructor (maxRetries: int, retryDelay: int, iface: DbFactory.DbInterface, dbType: string, sessions: nat -> Session)
      ensures this.maxRetries == maxRetries && this.retryDelay == retryDelay
      ensures engineUrl == DbFactory.SyncConnection(iface.kind)
      ensures this.dbType == dbType && this.sessions == sessions && sent == []
    {
      this.maxRetries := maxRetries;
      this.retryDelay := retryDelay;
      engineUrl := DbFactory.SyncConnection(iface.kind);
      this.dbType := dbType;
      this.sessions := sessions;
      sent := [];
    }

    /** The statement loop of one attempt: run in order, re-raise the first failure. */
    method RunAll(stmts: seq<string>, execute: string -> Option<DbError>) returns (error: Option<DbError>)
      modifies this
      ensures sent == old(sent) + ExecutedAll(RunStatements(stmts, execute).ran)
      ensures error == RunStatements(stmts, execute).error
    {
      var i := 0;
      while i < |stmts|
        invariant i <= |stmts|
        invariant RunStatements(stmts[..i], execute) == RunResult(stmts[..i], None)
        invariant sent == old(sent) + ExecutedAll(stmts[..i])
        decreases |stmts| - i
      {
        RunStatementsStep(stmts, execute, i);
        ExecutedAllStep(stmts, i);
        ghost var before := sent;
        sent := sent + [Executed(stmts[i])];
        assert sent == old(sent) + ExecutedAll(stmts[..i + 1]) by {
          assert before + [Executed(stmts[i])] == old(sent) + (ExecutedAll(stmts[..i]) + [Executed(stmts[i])]);
        }
        error := execute(stmts[i]);
        if error.Some? {
          RunStatementsErrorSticks(stmts, execute, i + 1);
          return;
        }
        i := i + 1;
      }
      assert stmts[..i] == stmts;
      error := None;
    }

    /** One attempt: connect, check the table, skip or run every statement, then commit once. */
    method ExecuteOnce(attempt: nat, text: string, checkExists: bool) returns (outcome: Outcome)
      modifies this
      ensures sent == old(sent) + Attempt(dbType, sessions(attempt), text, checkExists).actions
      ensures outcome == Attempt(dbType, sessions(attempt), text, checkExists).outcome
    {
      var conn := sessions(attempt);
      if conn.connectError.Some? {
        return Raised(conn.connectError.value);
      }
      var present := TableExists(dbType, conn);
      if present.Failure? {
        return Raised(present.error);
      }
      if checkExists && present.value {
        return AlreadyInitialized;
      }
      if !checkExists && !present.value {
        return NothingToDrop;
      }
      var rawSqlStatements := ReadSqlFile(text);
      var error := RunAll(rawSqlStatements, conn.execute);
      if error.Some? {
        return Raised(error.value);
      }
      if conn.commitError.Some? {
        return Raised(conn.commitError.value);
      }
      sent := sent + [Committed];
      outcome := Completed;
    }

    /** The attempts from `attempt` on, as the retry decorator makes them. */
    method ExecuteFrom(attempt: nat, sqlFile: string, checkExists: bool) returns (outcome: Outcome)
      requires 1 <= attempt <= MaxAttempts
      modifies this
      ensures sent == old(sent) + Retrying(AttemptsOf(dbType, sessions, sqlFile, checkExists), attempt).actions
      ensures outcome == Retrying(AttemptsOf(dbType, sessions, sqlFile, checkExists), attempt).outcome
      decreases MaxAttempts - attempt
    {
      ghost var attempts := AttemptsOf(dbType, sessions, sqlFile, checkExists);
      ghost var first := attempts(attempt);
      assert first == Attempt(dbType, sessions(attempt), sqlFile, checkExists);
      RetryingUnfold(attempts, attempt);
      outcome := ExecuteOnce(attempt, sqlFile, checkExists);
      assert sent == old(sent) + first.actions && outcome == first.outcome;
      if outcome == Raised(OperationalError) {
        if attempt < MaxAttempts {
          ghost var mid := sent;
          outcome := ExecuteFrom(attempt + 1, sqlFile, checkExists);
          RetriedActions(attempts, attempt, old(sent), mid, sent);
        } else {
          assert LaterActions(attempts, attempt) == [];
          assert first.actions + [] == first.actions;
          outcome := RetriesExhausted;
        }
      } else {
        assert LaterActions(attempts, attempt) == [];
        assert first.actions + [] == first.actions;
      }
    }

    /** `execute_sql_file` under its retry decorator: up to three attempts, retried on `OperationalError` only. */
    method ExecuteSqlFile(sqlFile: string, checkExists: bool, operationName: string) returns (outcome: Outcome)
      modifies this
      ensures sent == old(sent) + ExecuteSqlFileSpec(dbType, sessions, sqlFile, checkExists).actions
      ensures outcome == ExecuteSqlFileSpec(dbType, sessions, sqlFile, checkExists).outcome
    {
      outcome := ExecuteFrom(1, sqlFile, checkExists);
    }
  }

  /** `initialize_db`: run the init script unless the table already exists. */
  method InitializeDb(maxRetries: int, retryDelay: int, iface: DbFactory.DbInterface, dbType: string,
                      sessions: nat -> Session, initSql: string)
    returns (m: DatabaseManager, outcome: Outcome)
    ensures fresh(m) && m.sent == ExecuteSqlFileSpec(dbType, sessions, initSql, true).actions
    ensures outcome == ExecuteSqlFileSpec(dbType, sessions, initSql, true).outcome
  {
    m := new DatabaseManager(maxRetries, retryDelay, iface, dbType, sessions);
    outcome := m.ExecuteSqlFile(initSql, true, "Initializing");
  }

  /** `drop_db`: run the drop script unless there is no table to drop. */
  method DropDb(maxRetries: int, retryDelay: int, iface: DbFactory.DbInterface, dbType: string,
                sessions: nat -> Session, dropSql: string)
    returns (m: DatabaseManager, outcome: Outcome)
    ensures fresh(m) && m.sent == ExecuteSqlFileSpec(dbType, sessions, dropSql, false).actions
    ensures outcome == ExecuteSqlFileSpec(dbType, sessions, dropSql, false).outcome
  {
    m := new DatabaseManager(maxRetries, retryDelay, iface, dbType, sessions);
    outcome := m.ExecuteSqlFile(dropSql, false, "Dropping");
  }
}
