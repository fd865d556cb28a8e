/**
  `DatabaseExceptionDetector`: a stateless classifier that decides whether a
  failure is worth retrying (`IsTransient`) and whether it looks like a lost
  connection (`IsConnectionException`), across SQL Server, PostgreSQL, MySQL,
  Oracle and Entity Framework Core, without referencing any driver.
 */
module DatabaseExceptionDetector {
  import opened Wrappers
  import opened Text
  import opened Exceptions

  const DbUpdateConcurrencyExceptionName := "DbUpdateConcurrencyException"
  const DbUpdateExceptionName := "DbUpdateException"
  const SqlExceptionName := "SqlException"
  const NpgsqlExceptionName := "NpgsqlException"
  const PostgresExceptionName := "PostgresException"
  const MySqlExceptionName := "MySqlException"
  const OracleExceptionName := "OracleException"

  const TransientSqlServerErrorNumbers: set<int> := {-2, -1, 2, 53, 121, 1205, 1222, 8645, 8651, 4060}

  const TransientMySqlErrorCodes: set<int> := {1205, 1213, 2006, 2013, 1040, 1041}

  const ConnectionMessagePatterns: seq<string> := [
    "connection",
    "network",
    "timeout",
    "unable to connect",
    "server was not found",
    "could not open connection",
    "gone away",
    "lost connection",
    "resource busy"
  ]

  const OracleErrorPatterns: seq<string> := [
    "ora-00054",
    "ora-00060",
    "ora-04021",
    "ora-00604"
  ]

  /** The type names the classifier dispatches on. */
  const KnownTypeNames: set<string> := {
    DbUpdateConcurrencyExceptionName, DbUpdateExceptionName, SqlExceptionName,
    NpgsqlExceptionName, PostgresExceptionName, MySqlExceptionName, OracleExceptionName
  }

  /** The message mentions, ignoring case, one of the given patterns. */
  ghost predicate Mentions(message: string, patterns: seq<string>) {
    exists j :: 0 <= j < |patterns| && ContainsIgnoreCase(message, patterns[j])
  }

  /** The shared message check: a non-empty message that mentions a connection pattern. */
  function CheckMessagePatterns(message: string): (r: bool)
    ensures r <==> message != "" && Mentions(message, ConnectionMessagePatterns)
  {
    if message == "" then false
    else ContainsAnyIgnoreCase(message, ConnectionMessagePatterns)
  }

  function IsTransientSqlServerError(e: Exception): (r: bool)
    ensures e.fieldReadThrows ==> !r
    ensures !e.fieldReadThrows ==>
      (r <==> (e.number.Some? && e.number.value in TransientSqlServerErrorNumbers)
              || CheckMessagePatterns(e.message))
  {
    if e.fieldReadThrows then false
    else if e.number.Some? && e.number.value in TransientSqlServerErrorNumbers then true
    else CheckMessagePatterns(e.message)
  }

  function IsTransientPostgreSqlError(e: Exception): (r: bool)
    ensures e.fieldReadThrows ==> !r
    ensures !e.fieldReadThrows && e.sqlState.Some? && e.sqlState.value != "" ==>
      (r <==> "08" <= e.sqlState.value || "40" <= e.sqlState.value || "53" <= e.sqlState.value)
    ensures !e.fieldReadThrows && (e.sqlState.None? || e.sqlState.value == "") ==>
      r == CheckMessagePatterns(e.message)
  {
    if e.fieldReadThrows then false
    else if e.sqlState.Some? && e.sqlState.value != "" then
      var state := e.sqlState.value;
      // connection exception, transaction rollback, insufficient resources
      "08" <= state || "40" <= state || "53" <= state
    else CheckMessagePatterns(e.message)
  }

  function IsTransientMySqlError(e: Exception): (r: bool)
    ensures e.fieldReadThrows ==> !r
    ensures !e.fieldReadThrows ==>
      (r <==> (e.number.Some? && e.number.value in TransientMySqlErrorCodes)
              || CheckMessagePatterns(e.message))
  {
    if e.fieldReadThrows then false
    else if e.number.Some? && e.number.value in TransientMySqlErrorCodes then true
    else CheckMessagePatterns(e.message)
  }

  function IsTransientOracleError(e: Exception): (r: bool)
    ensures r <==> (e.message != "" &&
      (Mentions(e.message, OracleErrorPatterns) || Mentions(e.message, ConnectionMessagePatterns)))
  {
    if e.message == "" then false
    else if ContainsAnyIgnoreCase(e.message, OracleErrorPatterns) then true
    else CheckMessagePatterns(e.message)
  }

  /** Whether a failure is transient and worth retrying; `None` stands for a null exception. */
  function IsTransient(exception: Option<Exception>): (r: bool)
    decreases exception
    ensures exception.None? ==> !r
    ensures exception.Some? && exception.value.kind in {Timeout, TaskCanceled} ==> r
  {
    match exception
    case None => false
    case Some(e) =>
      if e.kind == Timeout || e.kind == TaskCanceled then true
      else if e.typeName == DbUpdateConcurrencyExceptionName then false
      else if e.typeName == DbUpdateExceptionName then IsTransient(e.inner)
      else if e.typeName == SqlExceptionName then IsTransientSqlServerError(e)
      else if e.typeName == NpgsqlExceptionName || e.typeName == PostgresExceptionName then
        IsTransientPostgreSqlError(e)
      else if e.typeName == MySqlExceptionName then IsTransientMySqlError(e)
      else if e.typeName == OracleExceptionName then IsTransientOracleError(e)
      else false
  }

  /** Whether a failure looks like a connectivity failure, judged by its message alone. */
  function IsConnectionException(exception: Option<Exception>): (r: bool)
    ensures r <==> exception.Some? && exception.value.message != ""
                   && Mentions(exception.value.message, ConnectionMessagePatterns)
  {
    match exception
    case None => false
    case Some(e) =>
      if e.message == "" then false
      else ContainsAnyIgnoreCase(e.message, ConnectionMessagePatterns)
  }
  /** Neither classifier accepts a missing exception. */
  lemma NullIsNeitherTransientNorConnection()
    ensures !IsTransient(None) && !IsConnectionException(None)
  {
  }

  /** Timeouts and cancellations are transient whatever their type name, message or fields. */
  lemma TimeoutsAreAlwaysTransient(e: Exception)
    requires e.kind == Timeout || e.kind == TaskCanceled
    ensures IsTransient(Some(e))
  {
  }

  /** An optimistic-concurrency conflict is never retried. */
  lemma ConcurrencyConflictIsNotTransient(e: Exception)
    requires e.kind != Timeout && e.kind != TaskCanceled
    requires e.typeName == DbUpdateConcurrencyExceptionName
    ensures !IsTransient(Some(e))
  {
  }

  /** A type name the classifier does not know is never transient, whatever the message says. */
  lemma UnknownTypeIsNotTransient(e: Exception)
    requires e.kind != Timeout && e.kind != TaskCanceled
    requires e.typeName !in KnownTypeNames
    ensures !IsTransient(Some(e))
  {
  }

  /**
    Type names are compared exactly: a plain exception whose message is the
    name of the concurrency exception does not become one.
   */
  lemma ConcurrencyNameInMessageIsNotTransient()
    ensures !IsTransient(Some(Plain(Other, "Exception", DbUpdateConcurrencyExceptionName)))
  {
    UnknownTypeIsNotTransient(Plain(Other, "Exception", DbUpdateConcurrencyExceptionName));
  }

  /** A `DbUpdateException` is transient exactly when it has an inner exception that is. */
  lemma UpdateExceptionFollowsInner(e: Exception)
    requires e.kind != Timeout && e.kind != TaskCanceled
    requires e.typeName == DbUpdateExceptionName
    ensures IsTransient(Some(e)) <==> e.inner.Some? && IsTransient(e.inner)
  {
  }

  /** `x` wrapped in `depth` layers of `DbUpdateException`. */
  function WrapInUpdateExceptions(x: Exception, depth: nat): (w: Exception)
    ensures depth > 0 ==> w.typeName == DbUpdateExceptionName && w.kind == Other
    ensures depth == 0 ==> w == x
  {
    if depth == 0 then x
    else Exception(Other, DbUpdateExceptionName, "An error occurred while saving the entity changes.",
                   None, None, Some(WrapInUpdateExceptions(x, depth - 1)), false)
  }

  /** Any number of `DbUpdateException` wrappers leave the verdict of the innermost exception unchanged. */
  lemma {:induction false} UpdateExceptionWrappersAreTransparent(x: Exception, depth: nat)
    ensures IsTransient(Some(WrapInUpdateExceptions(x, depth))) == IsTransient(Some(x))
  {
    if depth > 0 {
      UpdateExceptionWrappersAreTransparent(x, depth - 1);
    }
  }

  /** SQL Server: a listed error number, else the message check; a failing property read gives false. */
  lemma SqlServerClassification(e: Exception)
    requires e.kind != Timeout && e.kind != TaskCanceled
    requires e.typeName == SqlExceptionName
    ensures IsTransient(Some(e)) <==>
      !e.fieldReadThrows &&
      ((e.number.Some? && e.number.value in TransientSqlServerErrorNumbers) || CheckMessagePatterns(e.message))
  {
    assert IsTransient(Some(e)) == IsTransientSqlServerError(e);
  }

  /** MySQL: a listed error code, else the message check; a failing property read gives false. */
  lemma MySqlClassification(e: Exception)
    requires e.kind != Timeout && e.kind != TaskCanceled
    requires e.typeName == MySqlExceptionName
    ensures IsTransient(Some(e)) <==>
      !e.fieldReadThrows &&
      ((e.number.Some? && e.number.value in TransientMySqlErrorCodes) || CheckMessagePatterns(e.message))
  {
    assert IsTransient(Some(e)) == IsTransientMySqlError(e);
  }

  /** PostgreSQL with a non-empty SQLSTATE: transient exactly for classes 08, 40 and 53. */
  lemma PostgreSqlStateClassification(e: Exception)
    requires e.kind != Timeout && e.kind != TaskCanceled
    requires e.typeName == NpgsqlExceptionName || e.typeName == PostgresExceptionName
    requires e.sqlState.Some? && e.sqlState.value != ""
    ensures IsTransient(Some(e)) <==>
      !e.fieldReadThrows &&
      ("08" <= e.sqlState.value || "40" <= e.sqlState.value || "53" <= e.sqlState.value)
  {
    assert IsTransient(Some(e)) == IsTransientPostgreSqlError(e);
  }

  /** PostgreSQL without a SQLSTATE: the message check. */
  lemma PostgreSqlMessageClassification(e: Exception)
    requires e.kind != Timeout && e.kind != TaskCanceled
    requires e.typeName == NpgsqlExceptionName || e.typeName == PostgresExceptionName
    requires e.sqlState.None? || e.sqlState.value == ""
    ensures IsTransient(Some(e)) <==> !e.fieldReadThrows && CheckMessagePatterns(e.message)
  {
    assert IsTransient(Some(e)) == IsTransientPostgreSqlError(e);
  }

  /** With a non-empty SQLSTATE the PostgreSQL verdict does not depend on the message. */
  lemma PostgreSqlStateOverridesMessage(e: Exception, otherMessage: string)
    requires e.kind != Timeout && e.kind != TaskCanceled
    requires e.typeName == NpgsqlExceptionName || e.typeName == PostgresExceptionName
    requires e.sqlState.Some? && e.sqlState.value != ""
    ensures IsTransient(Some(e)) == IsTransient(Some(e.(message := otherMessage)))
  {
    PostgreSqlStateClassification(e);
    PostgreSqlStateClassification(e.(message := otherMessage));
  }

  /** Oracle: a non-empty message naming a listed ORA- code or a connection pattern. */
  lemma OracleClassification(e: Exception)
    requires e.kind != Timeout && e.kind != TaskCanceled
    requires e.typeName == OracleExceptionName
    ensures IsTransient(Some(e)) <==>
      e.message != "" &&
      (Mentions(e.message, OracleErrorPatterns) || Mentions(e.message, ConnectionMessagePatterns))
  {
    assert IsTransient(Some(e)) == IsTransientOracleError(e);
  }

  /** The connection check looks at the message only, as the shared message check does. */
  lemma ConnectionCheckIsMessageCheck(e: Exception)
    ensures IsConnectionException(Some(e)) == CheckMessagePatterns(e.message)
  {
  }

  /** Letters that each of the connection patterns holds at least one of, in either case. */
  const ConnectionWitnessLetters: set<char> := {'c', 'C', 'w', 'W', 'm', 'M', 'g', 'G', 's', 'S'}

  /**
    A message made without the letters c, w, m, g and s (in either case) never
    looks like a connection failure: every connection pattern holds one of them.
   */
  lemma MessagesWithoutWitnessLettersAreNotConnection(e: Exception)
    requires forall i :: 0 <= i < |e.message| ==> e.message[i] !in ConnectionWitnessLetters
    ensures !IsConnectionException(Some(e))
  {
    var s, ps := e.message, ConnectionMessagePatterns;
    assert FoldChar('c') == 'C' && FoldChar('w') == 'W' && FoldChar('m') == 'M';
    assert FoldChar('g') == 'G' && FoldChar('s') == 'S';
    AbsentLetterRulesOut(s, ps[0], 0, 'c');
    AbsentLetterRulesOut(s, ps[1], 3, 'w');
    AbsentLetterRulesOut(s, ps[2], 2, 'm');
    AbsentLetterRulesOut(s, ps[3], 10, 'c');
    AbsentLetterRulesOut(s, ps[4], 7, 'w');
    AbsentLetterRulesOut(s, ps[5], 0, 'c');
    AbsentLetterRulesOut(s, ps[6], 0, 'g');
    AbsentLetterRulesOut(s, ps[7], 2, 's');
    AbsentLetterRulesOut(s, ps[8], 2, 's');
  }

  /** A message holding, in any case, one of the connection patterns is a connection failure. */
  lemma PatternInMessageIsConnection(e: Exception, before: string, m: string, after: string, j: int)
    requires 0 <= j < |ConnectionMessagePatterns|
    requires e.message == before + m + after
    requires Fold(m) == Fold(ConnectionMessagePatterns[j])
    ensures IsConnectionException(Some(e))
  {
    OccursInside(before, m, after, ConnectionMessagePatterns[j]);
  }

  /** "Network error occurred" is a connection failure. */
  lemma NetworkErrorIsConnection(e: Exception)
    requires e.message == "Network error occurred"
    ensures IsConnectionException(Some(e))
  {
    PatternInMessageIsConnection(e, "", "Network", " error occurred", 1);
  }

  /** "Connection timeout" is a connection failure. */
  lemma ConnectionTimeoutIsConnection(e: Exception)
    requires e.message == "Connection timeout"
    ensures IsConnectionException(Some(e))
  {
    PatternInMessageIsConnection(e, "", "Connection", " timeout", 0);
  }

  /** "Invalid operation" is not a connection failure. */
  lemma InvalidOperationIsNotConnection(e: Exception)
    requires e.message == "Invalid operation"
    ensures !IsConnectionException(Some(e))
  {
    var s := e.message;
    assert forall i :: 0 <= i < |s| ==> s[i] in {'I', 'n', 'v', 'a', 'l', 'i', 'd', ' ', 'o', 'p', 'e', 'r', 't'};
    MessagesWithoutWitnessLettersAreNotConnection(e);
  }

  /** An empty message is not a connection failure. */
  lemma EmptyMessageIsNotConnection(e: Exception)
    requires e.message == ""
    ensures !IsConnectionException(Some(e))
  {
  }
}
