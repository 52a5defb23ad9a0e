/**
 * The row-level-security audit of cmd/main.go: it lists the tables of a
 * schema, and reports every table that has row-level security switched off
 * and is not on the user's ignore list. Opening the database, the query and
 * each row scan are driver calls whose outcomes are parameters.
 */
module RlsAudit {
  import opened GoRuntime
  import opened GoStrings
  import opened Driver

  /** The two columns of a pg_tables row the audit looks at. */
  datatype TableRow = TableRow(tableName: string, rowSecurity: bool)

  /** One rows.Scan: a row, or the scan's error. */
  datatype Scan = Scanned(row: TableRow) | ScanError(message: string)

  /** The text that heads the report of insecure tables. */
  const ReportPrefix: string := "found the following tables that don't implement Row Level Security: "

  /**
   * The ignore list parsed from the -ignored-tables flag: trim spaces off the
   * ends, split at commas. No entry holds a comma, and rejoining the entries
   * with commas gives back the trimmed flag.
   */
  function IgnoreList(flag: string): (ignored: seq<string>)
    ensures forall e :: e in ignored ==> ',' !in e
    ensures Join(ignored, ",") == Trim(flag, ' ')
  {
    SplitPiecesLackSeparator(Trim(flag, ' '), ',');
    JoinSplit(Trim(flag, ' '), ',');
    Split(Trim(flag, ' '), ',')
  }

  /** Whether the audit reports `row`: security off and the name not ignored. */
  predicate Insecure(row: TableRow, ignored: seq<string>)
  {
    !row.rowSecurity && row.tableName !in ignored
  }

  /** The names of the insecure tables among the first `n` scans, in row order. */
  function InsecureTables(scans: seq<Scan>, n: nat, ignored: seq<string>): seq<string>
    requires n <= |scans|
  {
    if n == 0 then []
    else
      var front := InsecureTables(scans, n - 1, ignored);
      var s := scans[n - 1];
      if s.Scanned? && Insecure(s.row, ignored) then front + [s.row.tableName] else front
  }

  /** The position of the first failed scan, if any. */
  function FirstScanError(scans: seq<Scan>): (r: Option<nat>)
    ensures r.Some? ==> r.value < |scans| && scans[r.value].ScanError?
                        && forall j :: 0 <= j < r.value ==> scans[j].Scanned?
    ensures r.None? ==> forall j :: 0 <= j < |scans| ==> scans[j].Scanned?
  {
    if scans == [] then None
    else if scans[0].ScanError? then Some(0)
    else
      match FirstScanError(scans[1..])
      case None => None
      case Some(k) => Some(k + 1)
  }

  /** The run's verdict once every row has been read: the report of insecure tables, or nil. */
  function Report(insecureTables: seq<string>): GoError
  {
    if |insecureTables| > 0 then Err(ReportPrefix + Join(insecureTables, ", ")) else Nil
  }

  /**
   * What run() returns: the open error, the query error, the first scan
   * error, or else the report.
   */
  function Audit(flag: string, open: Outcome, query: Outcome, scans: seq<Scan>): (r: GoError)
    ensures open.Fail? ==> r == Err(open.message)
    ensures open.Ok? && query.Fail? ==> r == Err(query.message)
    ensures open.Ok? && query.Ok? && (exists j :: 0 <= j < |scans| && scans[j].ScanError?) ==>
              exists j :: 0 <= j < |scans| && scans[j].ScanError? && r == Err(scans[j].message)
                          && forall i :: 0 <= i < j ==> scans[i].Scanned?
  {
    if open.Fail? then Err(open.message)
    else if query.Fail? then Err(query.message)
    else
      match FirstScanError(scans)
      case Some(k) => Err(scans[k].message)
      case None => Report(InsecureTables(scans, |scans|, IgnoreList(flag)))
  }

  /** The inner loop of run(): whether `name` is on the ignore list, stopping at the first match. */
  method IsIgnored(name: string, ignored: seq<string>) returns (isIgnored: bool)
    ensures isIgnored <==> name in ignored
  {
    isIgnored := false;
    var m := 0;
    while m < |ignored|
      invariant 0 <= m <= |ignored|
      invariant name !in ignored[..m]
    {
      if name == ignored[m] {
        isIgnored := true;
        break;
      }
      assert ignored[..m + 1] == ignored[..m] + [ignored[m]];
      m := m + 1;
    }
    assert !isIgnored ==> ignored[..m] == ignored;
  }

  /**
   * run(): parse the ignore list, open, query, then read the rows one by one,
   * collecting the insecure tables; any failure ends the run with its error.
   */
  method Run(flag: string, open: Outcome, query: Outcome, scans: seq<Scan>) returns (err: GoError)
    ensures err == Audit(flag, open, query, scans)
  {
    var ignored := IgnoreList(flag);
    if open.Fail? {
      return Err(open.message);
    }
    if query.Fail? {
      return Err(query.message);
    }
    var insecureTables: seq<string> := [];
    var k := 0;
    while k < |scans|
      invariant 0 <= k <= |scans|
      invariant forall j :: 0 <= j < k ==> scans[j].Scanned?
      invariant insecureTables == InsecureTables(scans, k, ignored)
    {
      var s := scans[k];
      if s.ScanError? {
        return Err(s.message);
      }
      var r := s.row;
      if !r.rowSecurity {
        var isIgnored := IsIgnored(r.tableName, ignored);
        if !isIgnored {
          insecureTables := insecureTables + [r.tableName];
        }
      }
      k := k + 1;
    }
    if |insecureTables| > 0 {
      return Err(ReportPrefix + Join(insecureTables, ", "));
    }
    return Nil;
  }

  /** A table is listed exactly when one of its scanned rows has security off and is not ignored. */
  lemma {:induction false} InsecureTablesListsExactly(scans: seq<Scan>, n: nat, ignored: seq<string>, name: string)
    requires n <= |scans|
    ensures name in InsecureTables(scans, n, ignored) <==>
              exists j :: 0 <= j < n && scans[j].Scanned? && scans[j].row.tableName == name && Insecure(scans[j].row, ignored)
  {
    if n > 0 {
      InsecureTablesListsExactly(scans, n - 1, ignored, name);
    }
  }

  /** Every part occurs in the joined text. */
  lemma {:induction false} JoinContainsEach(parts: seq<string>, sep: string)
    ensures forall p :: p in parts ==> Contains(Join(parts, sep), p)
  {
    if |parts| == 1 {
      ContainsStart(parts[0], "");
      assert parts[0] + "" == parts[0];
    } else if |parts| > 1 {
      JoinContainsEach(parts[1..], sep);
      forall p | p in parts
        ensures Contains(Join(parts, sep), p)
      {
        if p == parts[0] {
          ContainsStart(parts[0], sep + Join(parts[1..], sep));
          assert Join(parts, sep) == parts[0] + (sep + Join(parts[1..], sep));
        } else {
          assert p in parts[1..];
          ContainsAfter(parts[0] + sep, Join(parts[1..], sep), p);
        }
      }
    }
  }

  /**
   * run() returns nil exactly when opening, the query and every scan
   * succeed and every table has security on or is ignored.
   */
  lemma AuditNilIff(flag: string, open: Outcome, query: Outcome, scans: seq<Scan>)
    ensures Audit(flag, open, query, scans) == Nil <==>
              open.Ok? && query.Ok? && forall j :: 0 <= j < |scans| ==>
                scans[j].Scanned? && !Insecure(scans[j].row, IgnoreList(flag))
  {
    var ignored := IgnoreList(flag);
    if open.Ok? && query.Ok? && FirstScanError(scans).None? {
      var t := InsecureTables(scans, |scans|, ignored);
      if t != [] {
        InsecureTablesListsExactly(scans, |scans|, ignored, t[0]);
      }
      forall j | 0 <= j < |scans| && Insecure(scans[j].row, ignored)
        ensures t != []
      {
        InsecureTablesListsExactly(scans, |scans|, ignored, scans[j].row.tableName);
      }
    }
  }

  /** When every scan succeeds, run() fails with a report that names every insecure table. */
  lemma AuditNamesEveryInsecureTable(flag: string, scans: seq<Scan>, j: nat)
    requires j < |scans| && FirstScanError(scans).None?
    requires Insecure(scans[j].row, IgnoreList(flag))
    ensures Audit(flag, Ok, Ok, scans).Err?
    ensures Contains(Audit(flag, Ok, Ok, scans).message, scans[j].row.tableName)
  {
    var t := InsecureTables(scans, |scans|, IgnoreList(flag));
    InsecureTablesListsExactly(scans, |scans|, IgnoreList(flag), scans[j].row.tableName);
    JoinContainsEach(t, ", ");
    ContainsAfter(ReportPrefix, Join(t, ", "), scans[j].row.tableName);
  }

  /** Spaces after a comma are kept: with "a, b" the table "b" is not ignored, " b" is. */
  lemma IgnoreListKeepsInnerSpaces()
    ensures IgnoreList("a, b") == ["a", " b"]
    ensures "b" !in IgnoreList("a, b")
  {
    var flag := "a, b";
    assert TrimLeft(flag, ' ') == flag;
    assert TrimRight(flag, ' ') == flag;
    assert ',' in flag && flag[1] == ',' && ',' !in flag[..1];
    assert IndexOf(flag, ',') == 1;
    assert flag[..1] == "a" && flag[2..] == " b";
    assert ',' !in " b";
    assert Split(" b", ',') == [" b"];
    assert Split(flag, ',') == ["a"] + [" b"];
  }
}
