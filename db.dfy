/**
 * The Postgres storage implementation (db/db.go), with the SQL driver
 * abstracted: what a statement returns is an input, not something computed.
 *
 * What is modelled exactly is the text of the UPDATE statement that
 * `UpdateUserById` builds from an open-ended field map together with its
 * bound values, and how `CreateUser` and `GetUserById` shape the driver's
 * outcome into their Go results.
 */
module Db {
  import opened Wrappers
  import opened Strings
  import opened Models

  /** A value decoded from a JSON request body into Go's `any`. */
  datatype Value =
    | Null
    | Bool(b: bool)
    | Number(n: real)
    | Text(s: string)
    | Array(items: seq<Value>)
    | Object(members: seq<(string, Value)>)

  /** An argument bound to a positional placeholder: the row id, or a value of the field map. */
  datatype Param = IdParam(id: int) | FieldParam(value: Value)

  /** The two errors the storage code tells apart: `sql.ErrNoRows` and everything else. */
  datatype DbError = ErrNoRows | DriverError(cause: string)

  /** The outcome of `QueryRow(...).Scan(...)`: the scanned value, or the error Scan returned. */
  datatype Row<T> = Scanned(value: T) | ScanError(err: DbError)

  // ---------------------------------------------------------------------------
  // UpdateUserById: the statement text and its bound values
  // ---------------------------------------------------------------------------

  const UpdatePrefix := "UPDATE users SET "
  const UpdateSuffix := " WHERE id = $1"

  /** The positional placeholder `$j`. */
  function Placeholder(j: nat): string {
    "$" + Decimal(j)
  }

  /** One assignment `key=$j` of the SET list. */
  function Assignment(key: string, j: nat): string {
    key + "=" + Placeholder(j)
  }

  /**
   * The assignments for the entries in visiting order: the k-th entry
   * (from 0) is bound to placeholder `$(k+2)`, since `$1` is the row id.
   */
  function Assignments(entries: seq<(string, Value)>): seq<string> {
    seq(|entries|, k requires 0 <= k < |entries| => Assignment(entries[k].0, k + 2))
  }

  /** The SET list: the assignments separated by single commas. */
  function SetList(entries: seq<(string, Value)>): string {
    Join(Assignments(entries), ',')
  }

  /** The statement `UpdateUserById` executes for the entries in this visiting order. */
  function UpdateStatement(entries: seq<(string, Value)>): string {
    UpdatePrefix + SetList(entries) + UpdateSuffix
  }

  /** The bound values: the row id for `$1`, then the entries' values in visiting order. */
  function BoundValues(id: int, entries: seq<(string, Value)>): seq<Param> {
    [IdParam(id)] + seq(|entries|, k requires 0 <= k < |entries| => FieldParam(entries[k].1))
  }

  /**
   * Builds the statement and the argument list of `UpdateUserById` (the
   * driver call itself is left to the store). `newData` lists the field map's
   * entries in the order Go's `range` happens to visit them; every order is
   * allowed, and the result is the specification for that order.
   */
  method BuildUpdate(id: int, newData: seq<(string, Value)>) returns (query: string, values: seq<Param>)
    ensures query == UpdateStatement(newData)
    ensures values == BoundValues(id, newData)
    ensures |values| == |newData| + 1 && values[0] == IdParam(id)
    ensures newData == [] ==> query == "UPDATE users SET  WHERE id = $1" && values == [IdParam(id)]
  {
    var fields := "";
    values := [IdParam(id)];
    var i := 2;
    for n := 0 to |newData|
      invariant i == n + 2
      invariant fields == Terminated(Assignments(newData[..n]), ',')
      invariant values == BoundValues(id, newData[..n])
    {
      var (key, val) := newData[n];
      ghost var before := Assignments(newData[..n]);
      ghost var after := Assignments(newData[..n + 1]);
      assert after[..n] == before;
      assert after[n] == key + "=" + ("$" + Decimal(i));
      fields := fields + key + "=$" + Decimal(i) + ",";
      assert BoundValues(id, newData[..n + 1]) == BoundValues(id, newData[..n]) + [FieldParam(val)];
      values := values + [FieldParam(val)];
      i := i + 1;
    }
    assert newData[..|newData|] == newData;
    AssignmentsEndInDigit(newData);
    TrimTerminated(Assignments(newData), ',');
    fields := TrimRight(fields, ',');
    query := UpdatePrefix + fields + UpdateSuffix;
  }

  /** Every assignment ends in a decimal digit, never in the comma that separates them. */
  lemma AssignmentsEndInDigit(entries: seq<(string, Value)>)
    ensures forall k :: 0 <= k < |entries| ==>
      var a := Assignments(entries)[k]; |a| > 0 && IsDigit(a[|a| - 1])
  {
  }

  /** The length of the longest suffix of `s` made of decimal digits. */
  function TrailingDigits(s: string): (n: nat)
    ensures n <= |s| && AllDigits(s[|s| - n..])
    ensures n < |s| ==> !IsDigit(s[|s| - n - 1])
  {
    if s != [] && IsDigit(s[|s| - 1]) then 1 + TrailingDigits(s[..|s| - 1]) else 0
  }

  /**
   * Reads an assignment `key=$j` back into its key and placeholder number.
   * The number is the trailing run of digits, so a key may itself contain
   * `=`, `$`, commas or digits.
   */
  function ParseAssignment(fragment: string): Option<(string, nat)> {
    var n := TrailingDigits(fragment);
    var cut := |fragment| - n;
    if n == 0 || cut < 2 || fragment[cut - 2..cut] != "=$" then None
    else Some((fragment[..cut - 2], DecimalValue(fragment[cut..])))
  }

  lemma {:induction false} TrailingDigitsOf(p: string, d: string)
    requires AllDigits(d) && |p| > 0 && !IsDigit(p[|p| - 1])
    ensures TrailingDigits(p + d) == |d|
    decreases |d|
  {
    if d == [] {
      assert p + d == p;
    } else {
      assert (p + d)[..|p + d| - 1] == p + d[..|d| - 1];
      TrailingDigitsOf(p, d[..|d| - 1]);
    }
  }

  /** An assignment gives back exactly the key spliced into it and its placeholder number. */
  lemma ParseAssignmentRoundTrip(key: string, j: nat)
    ensures ParseAssignment(Assignment(key, j)) == Some((key, j))
  {
    var p := key + "=$";
    var d := Decimal(j);
    var s := Assignment(key, j);
    assert s == p + d;
    TrailingDigitsOf(p, d);
    DecimalRoundTrip(j);
    assert s[|s| - |d|..] == d;
    assert s[..|s| - |d| - 2] == key;
  }

  /**
   * Placeholder alignment: the k-th entry visited contributes the assignment
   * `key=$(k+2)` with its key verbatim, and the value bound to that
   * placeholder, `values[(k+2)-1]`, is that entry's value.
   */
  lemma PlaceholderAlignment(id: int, entries: seq<(string, Value)>, k: nat)
    requires k < |entries|
    ensures ParseAssignment(Assignments(entries)[k]) == Some((entries[k].0, k + 2))
    ensures var j := k + 2; BoundValues(id, entries)[j - 1] == FieldParam(entries[k].1)
  {
    ParseAssignmentRoundTrip(entries[k].0, k + 2);
  }

  /**
   * Only the values are parameterised: the statement text is determined by the
   * keys in visiting order alone, whatever the values and whatever the id.
   */
  lemma StatementDependsOnlyOnKeys(e1: seq<(string, Value)>, e2: seq<(string, Value)>)
    requires |e1| == |e2|
    requires forall k :: 0 <= k < |e1| ==> e1[k].0 == e2[k].0
    ensures UpdateStatement(e1) == UpdateStatement(e2)
  {
    assert Assignments(e1) == Assignments(e2);
  }

  /** The data columns of `users`: every column but the primary key `id`. */
  const DataColumns := {"name", "email", "age"}

  /**
   * Every key of the field map names a data column. Only then is the
   * statement an assignment to columns of row `id` and nothing else: a key
   * `id` moves the row, and a key carrying SQL text can change any row.
   */
  predicate PlainColumns(entries: seq<(string, Value)>) {
    forall k :: 0 <= k < |entries| ==> entries[k].0 in DataColumns
  }

  /** Some entry of the field map assigns `column`. */
  predicate Assigns(entries: seq<(string, Value)>, column: string) {
    exists k :: 0 <= k < |entries| && entries[k].0 == column
  }

  /**
   * A key is not escaped: a key carrying SQL text changes the statement's
   * meaning. Here it widens the WHERE clause to every row and comments out
   * the rest, while both bound values still have their placeholders.
   */
  lemma KeyIsSplicedVerbatim()
    ensures var key := "age=$2 WHERE id=$1 OR id<>$1 --";
      var entries := [(key, Number(31.0))];
      UpdateStatement(entries) == "UPDATE users SET " + key + "=$2 WHERE id = $1" &&
      BoundValues(1, entries) == [IdParam(1), FieldParam(Number(31.0))] &&
      !PlainColumns(entries)
  {
  }

  // ---------------------------------------------------------------------------
  // CreateUser and GetUserById: shaping the driver's outcome
  // ---------------------------------------------------------------------------

  /**
   * The result of `CreateUser` given the outcome of `INSERT ... RETURNING id`:
   * the scanned id and no error, or -1 with the error.
   */
  function CreateUserResult(row: Row<int>): (r: (int, Option<DbError>))
    ensures r.1.None? <==> row.Scanned?
    ensures row.Scanned? ==> r.0 == row.value
    ensures row.ScanError? ==> r.0 == -1 && r.1 == Some(row.err)
  {
    match row
    case Scanned(id) => (id, None)
    case ScanError(e) => (-1, Some(e))
  }

  /**
   * The result of `GetUserById` given the outcome of the single-row SELECT.
   * The user is nil exactly when the driver reports no rows; any other error
   * comes with a non-nil user (the zero `User{}` Scan left untouched).
   */
  function GetUserResult(row: Row<User>): (r: (Option<User>, Option<DbError>))
    ensures r.0.None? <==> row == ScanError(ErrNoRows)
    ensures r.1.None? <==> row.Scanned?
    ensures row.Scanned? ==> r.0 == Some(row.value)
    ensures row.ScanError? ==> r.1 == Some(row.err)
  {
    match row
    case Scanned(u) => (Some(u), None)
    case ScanError(ErrNoRows) => (None, Some(ErrNoRows))
    case ScanError(e) => (Some(ZeroUser), Some(e))
  }
}
