/** internal/db/companyRepo.go: the company listing query and the insert.
    The database is a collaborator (`Db`): the model fixes the statement
    text and the bound parameters it is given, and how each of its answers
    (prepare error, query error, rows that do or do not scan, exec error)
    becomes the repository's result. */
module CompanyRepo {
  import opened Wrappers
  import opened GoErrors
  import opened GoStrconv
  import opened Model

  /** The columns a listing may be ordered by. */
  const ValidColumns: seq<string> := ["naziv", "vlasnik", "PIB", "maticniBroj", "mesto", "sediste"]

  /** Linear search of the whitelist, as the source loops over it. */
  function FindColumn(cols: seq<string>, col: string): (found: bool)
    ensures found <==> col in cols
  {
    if |cols| == 0 then false
    else if cols[0] == col then true
    else
      assert cols == [cols[0]] + cols[1..];
      FindColumn(cols[1..], col)
  }

  /** `validateColumn`: exact, case-sensitive membership in the whitelist. */
  function ValidateColumn(col: string): (ok: bool)
    ensures ok <==> col == "naziv" || col == "vlasnik" || col == "PIB"
                    || col == "maticniBroj" || col == "mesto" || col == "sediste"
  {
    FindColumn(ValidColumns, col)
  }

  /** The fixed part of the listing query, ending in "ORDER BY ". The three
      filters appear only as `?` placeholders, each twice. */
  const QueryPrefix: string :=
    "SELECT PIB, delatnost, vlasnik, c.naziv, adresaSedista, postanskiBroj, mesto, maticniBroj, n.oznaka, n.naziv as nstjNaziv\n"
    + "        FROM company c\n"
    + "        LEFT JOIN NSTJ n ON c.sediste = n.oznaka \n"
    + "        WHERE (? = \"\" OR delatnost = ?)\n"
    + "        AND (? = \"\" OR sediste = ?)\n"
    + "        AND (? = \"\" OR mesto = ?)\n"
    + "        ORDER BY "

  /** The rows of one page. */
  const PageSize: int := 50

  /** `filter.Page*50` as written: Go's `int` multiplication wraps around
      at 64 bits. */
  function OffsetAsWritten(page: int): (offset: int)
    ensures InInt64(offset)
    ensures (page * PageSize - offset) % 0x1_0000_0000_0000_0000 == 0
    ensures InInt64(page * PageSize) ==> offset == page * PageSize
  {
    Wrap64(page * PageSize)
  }

  /** The intended offset: the first row of page `page`. */
  function Offset(page: int): (offset: int)
    ensures page >= 0 ==> offset >= 0 && offset % PageSize == 0
    ensures page >= 0 ==> offset <= page * PageSize < offset + PageSize
  {
    page * PageSize
  }

  /** A page number the controller lets through whose offset as written
      wraps back into range: a well-formed statement for the wrong page. */
  lemma OffsetWrapsToOtherPage()
    ensures var page := 368934881474191033;
      && 0 <= page <= MaxInt64
      && OffsetAsWritten(page) == 34
      && Offset(page) == 18446744073709551650
  {
  }

  /** The two offsets agree whenever the product fits in 64 bits. */
  lemma OffsetsAgreeWithoutOverflow(page: int)
    requires 0 <= page <= MaxInt64 / PageSize
    ensures OffsetAsWritten(page) == Offset(page)
  {
  }

  /** A page number the controller lets through (non-negative, within
      int64) whose offset as written is negative. */
  lemma OffsetOverflows()
    ensures var page := 184467440737095517;
      && 0 <= page <= MaxInt64
      && OffsetAsWritten(page) == -9223372036854775766
      && Offset(page) == 9223372036854775850
  {
  }

  /** The statement text: prefix, then the order column, the direction and
      the page window, each separated by one space. */
  function QueryText(orderBy: string, asc: bool, offset: int): (text: string)
    ensures |text| > |QueryPrefix|
    ensures text[..|QueryPrefix|] == QueryPrefix
    ensures text[|text| - 1] == ';'
  {
    SplitAfter(QueryPrefix, QuerySuffix(orderBy, asc, offset));
    QueryPrefix + QuerySuffix(orderBy, asc, offset)
  }

  function QuerySuffix(orderBy: string, asc: bool, offset: int): string {
    " " + orderBy + " " + (if asc then "ASC" else "DESC")
      + " " + "LIMIT 50 OFFSET" + " " + Itoa(offset) + ";"
  }

  /** The statement the repository as written prepares for a filter: the
      offset is the 64-bit product. */
  function ListingQueryAsWritten(filter: CompanyFilter): (text: string)
    ensures |text| > |QueryPrefix| && text[..|QueryPrefix|] == QueryPrefix
    ensures 0 <= filter.page <= MaxInt64 / PageSize ==> text == FilterQuery(filter)
  {
    if 0 <= filter.page <= MaxInt64 / PageSize then
      OffsetsAgreeWithoutOverflow(filter.page);
      QueryText(filter.orderBy, filter.asc, OffsetAsWritten(filter.page))
    else
      QueryText(filter.orderBy, filter.asc, OffsetAsWritten(filter.page))
  }

  /** The statement the corrected repository prepares for a filter. */
  function FilterQuery(filter: CompanyFilter): string {
    QueryText(filter.orderBy, filter.asc, Offset(filter.page))
  }

  /** A value passed to the driver separately from the statement text. */
  datatype SqlValue = SqlInt(i: int) | SqlText(s: string)

  /** The bound parameters of the listing query: each filter twice, in the
      order of the placeholders. */
  function QueryParams(filter: CompanyFilter): (params: seq<SqlValue>)
    ensures |params| == 6
    ensures params[0] == params[1] == SqlText(filter.delatnost)
    ensures params[2] == params[3] == SqlText(filter.sediste)
    ensures params[4] == params[5] == SqlText(filter.mesto)
  {
    [SqlText(filter.delatnost), SqlText(filter.delatnost),
     SqlText(filter.sediste), SqlText(filter.sediste),
     SqlText(filter.mesto), SqlText(filter.mesto)]
  }

  /** Characters that cannot open a string literal, a comment or a nested
      expression in SQL: ASCII letters and digits, the space and the
      statement terminator. */
  predicate SqlSafeChar(c: char) {
    ('a' <= c <= 'z') || ('A' <= c <= 'Z') || ('0' <= c <= '9') || c == ' ' || c == ';'
  }

  predicate SqlSafeText(s: string) {
    forall c | c in s :: SqlSafeChar(c)
  }

  lemma SqlSafeConcat(a: string, b: string)
    requires SqlSafeText(a) && SqlSafeText(b)
    ensures SqlSafeText(a + b)
  {
  }

  lemma ColumnNamesAreSafe(col: string)
    requires ValidateColumn(col)
    ensures SqlSafeText(col)
  {
  }

  lemma DigitsAreSafe(s: string)
    requires AllDigits(s)
    ensures SqlSafeText(s)
  {
    forall c | c in s
      ensures SqlSafeChar(c)
    {
      var i :| 0 <= i < |s| && s[i] == c;
      assert IsDigit(s[i]);
    }
  }

  lemma KeywordsAreSafe()
    ensures SqlSafeText(" ") && SqlSafeText(";") && SqlSafeText("ASC") && SqlSafeText("DESC")
    ensures SqlSafeText(" LIMIT 50 OFFSET ")
  {
  }

  /** Everything the repository appends after the prefix is made of safe
      characters when the column is. */
  lemma {:induction false} QuerySuffixIsSafe(orderBy: string, asc: bool, offset: int)
    requires SqlSafeText(orderBy)
    requires offset >= 0
    ensures SqlSafeText(QuerySuffix(orderBy, asc, offset))
  {
    var dir := if asc then "ASC" else "DESC";
    var digits := Itoa(offset);
    DigitsAreSafe(digits);
    KeywordsAreSafe();
    var s2 := " " + orderBy + " " + dir;
    SqlSafeConcat(" ", orderBy);
    SqlSafeConcat(" " + orderBy, " ");
    SqlSafeConcat(" " + orderBy + " ", dir);
    SqlSafeConcat(s2, " LIMIT 50 OFFSET ");
    SqlSafeConcat(s2 + " LIMIT 50 OFFSET ", digits);
    SqlSafeConcat(s2 + " LIMIT 50 OFFSET " + digits, ";");
    assert QuerySuffix(orderBy, asc, offset) == s2 + " LIMIT 50 OFFSET " + digits + ";";
  }

  lemma SplitAfter(p: string, s: string)
    ensures (p + s)[..|p|] == p && (p + s)[|p|..] == s
  {
  }

  /** After the fixed prefix, the statement consists only of letters,
      digits, spaces and the final `;`: no filter text and no quoting
      characters ever reach it, whatever the request contained. */
  lemma {:induction false} QueryTextIsSafe(filter: CompanyFilter)
    requires ValidateColumn(filter.orderBy)
    requires filter.page >= 0
    ensures FilterQuery(filter)[..|QueryPrefix|] == QueryPrefix
    ensures SqlSafeText(FilterQuery(filter)[|QueryPrefix|..])
  {
    var suffix := QuerySuffix(filter.orderBy, filter.asc, Offset(filter.page));
    ColumnNamesAreSafe(filter.orderBy);
    QuerySuffixIsSafe(filter.orderBy, filter.asc, Offset(filter.page));
    SplitAfter(QueryPrefix, suffix);
  }

  /** The statement as written has the same shape as long as `page * 50`
      fits in 64 bits. */
  lemma {:induction false} QueryTextAsWrittenIsSafe(filter: CompanyFilter)
    requires ValidateColumn(filter.orderBy)
    requires 0 <= filter.page <= MaxInt64 / PageSize
    ensures ListingQueryAsWritten(filter)[..|QueryPrefix|] == QueryPrefix
    ensures SqlSafeText(ListingQueryAsWritten(filter)[|QueryPrefix|..])
  {
    OffsetsAgreeWithoutOverflow(filter.page);
    QueryTextIsSafe(filter);
  }

  /** A negative offset puts its minus sign into the statement text: the
      text after the prefix is no longer letters, digits, spaces and `;`
      (the database then sees a malformed `OFFSET`). */
  lemma NegativeOffsetLeavesDigitAlphabet(orderBy: string, asc: bool, offset: int)
    requires offset < 0
    ensures !SqlSafeText(QuerySuffix(orderBy, asc, offset))
  {
    var digits := Itoa(offset);
    assert digits[0] == '-';
    assert '-' in digits;
    assert !SqlSafeChar('-');
  }

  /** Beyond that bound the wrapped offset is negative, and its minus sign
      reaches the statement text. */
  lemma {:induction false} QueryTextAsWrittenOverflows()
    ensures var filter := CompanyFilter("PIB", true, 184467440737095517, "", "", "");
      && ValidateColumn(filter.orderBy)
      && !SqlSafeText(ListingQueryAsWritten(filter)[|QueryPrefix|..])
  {
    var filter := CompanyFilter("PIB", true, 184467440737095517, "", "", "");
    OffsetOverflows();
    NegativeOffsetLeavesDigitAlphabet("PIB", true, OffsetAsWritten(filter.page));
    SplitAfter(QueryPrefix, QuerySuffix("PIB", true, OffsetAsWritten(filter.page)));
  }

  /** The filter strings influence only the bound parameters, never the
      statement text. */
  lemma FilterStringsNotInText(filter: CompanyFilter, mesto: string, sediste: string, delatnost: string)
    ensures ListingQueryAsWritten(filter.(mesto := mesto, sediste := sediste, delatnost := delatnost)) == ListingQueryAsWritten(filter)
    ensures FilterQuery(filter.(mesto := mesto, sediste := sediste, delatnost := delatnost)) == FilterQuery(filter)
    ensures QueryParams(filter.(mesto := mesto, sediste := sediste, delatnost := delatnost))
         == [SqlText(delatnost), SqlText(delatnost), SqlText(sediste), SqlText(sediste), SqlText(mesto), SqlText(mesto)]
  {
  }

  /** One result row: a company, or the `%#v` rendering of the partly filled
      company when scanning the row failed. */
  datatype Row = Scanned(company: Company) | ScanFailed(partial: string)

  datatype QueryResult = Rows(rows: seq<Row>) | QueryFailed(err: Error)

  /** The database: `Prepare` (error only), `Stmt.Query` and `Stmt.Exec`. */
  datatype Db = Db(
    prepare: string -> Option<Error>,
    query: (string, seq<SqlValue>) -> QueryResult,
    exec: (string, seq<SqlValue>) -> Option<Error>)

  /** `([]model.Company, error)`, or a run-time panic. */
  datatype FindResult = Found(companies: seq<Company>, err: Option<Error>) | Panicked

  /** The error a failed scan of a row becomes. */
  function ScanError(partial: string): Error {
    Errorf("", DatabaseError, ": couldn't scan company " + partial)
  }

  /** What the scanning loop yields for `rows`: every company up to the
      first row that fails to scan, and then that row's error. */
  ghost predicate ScanOutcome(rows: seq<Row>, companies: seq<Company>, err: Option<Error>) {
    && |companies| <= |rows|
    && (forall i :: 0 <= i < |companies| ==> rows[i] == Scanned(companies[i]))
    && (err.None? ==> |companies| == |rows|)
    && (err.Some? ==> |companies| < |rows| && rows[|companies|].ScanFailed?
                      && err.value == ScanError(rows[|companies|].partial))
  }

  /** Every row of a result scans into a company. */
  predicate AllScanned(rows: seq<Row>) {
    forall i :: 0 <= i < |rows| ==> rows[i].Scanned?
  }

  /** The companies of a result whose every row scans. */
  function ScannedCompanies(rows: seq<Row>): seq<Company>
    requires AllScanned(rows)
  {
    seq(|rows|, i requires 0 <= i < |rows| => rows[i].company)
  }

  /** The scan fails exactly when some row does not scan, and otherwise
      yields every row's company. */
  lemma ScanOutcomeComplete(rows: seq<Row>, companies: seq<Company>, err: Option<Error>)
    requires ScanOutcome(rows, companies, err)
    ensures err.None? <==> AllScanned(rows)
    ensures err.None? ==> companies == ScannedCompanies(rows)
  {
    if err.None? {
      assert forall i :: 0 <= i < |rows| ==> rows[i] == Scanned(companies[i]);
    }
  }

  /** The `for rows.Next()` loop. */
  method ScanRows(rows: seq<Row>) returns (companies: seq<Company>, err: Option<Error>)
    ensures ScanOutcome(rows, companies, err)
    ensures err.Some? ==> Is(err.value, DatabaseError)
  {
    companies := [];
    var i := 0;
    while i < |rows|
      invariant 0 <= i <= |rows|
      invariant |companies| == i
      invariant forall k :: 0 <= k < i ==> rows[k] == Scanned(companies[k])
    {
      match rows[i]
      case ScanFailed(partial) =>
        return companies, Some(ScanError(partial));
      case Scanned(company) =>
        companies := companies + [company];
      i := i + 1;
    }
    return companies, None;
  }

  /** The error for an order column outside the whitelist. */
  function InvalidColumnError(orderBy: string): Error {
    Errorf("", InvalidFilter, ": " + orderBy + " is an invalid column")
  }

  /** `FindCompanies` as written: the offset wraps at 64 bits, and the error
      of `stmt.Query` is never checked, so a failed query leaves a nil
      `*sql.Rows` whose `Next` panics. */
  method FindCompaniesAsWritten(db: Db, filter: CompanyFilter) returns (r: FindResult)
    ensures !ValidateColumn(filter.orderBy) ==> r == Found([], Some(InvalidColumnError(filter.orderBy)))
    ensures ValidateColumn(filter.orderBy) ==>
      var text := ListingQueryAsWritten(filter);
      && (db.prepare(text).Some? ==> r == Found([], Some(DatabaseError)))
      && (db.prepare(text).None? && db.query(text, QueryParams(filter)).QueryFailed? ==> r == Panicked)
      && (db.prepare(text).None? && db.query(text, QueryParams(filter)).Rows? ==>
            r.Found? && ScanOutcome(db.query(text, QueryParams(filter)).rows, r.companies, r.err))
  {
    if !ValidateColumn(filter.orderBy) {
      return Found([], Some(InvalidColumnError(filter.orderBy)));
    }
    var text := ListingQueryAsWritten(filter);
    if db.prepare(text).Some? {
      return Found([], Some(DatabaseError));
    }
    match db.query(text, QueryParams(filter))
    case QueryFailed(_) =>
      return Panicked;
    case Rows(rows) =>
      var companies, err := ScanRows(rows);
      return Found(companies, err);
  }

  /** `FindCompanies` as evidently intended: the exact offset, and a failed
      query reported as `DatabaseError` like a failed prepare. It never
      panics, and every error it returns is an invalid filter or a
      database error. */
  method FindCompanies(db: Db, filter: CompanyFilter) returns (r: FindResult)
    ensures r.Found?
    ensures r.err.Some? ==> Is(r.err.value, InvalidFilter) || Is(r.err.value, DatabaseError)
    ensures Is(r.err.GetOr(Opaque("")), InvalidFilter) <==> !ValidateColumn(filter.orderBy)
    ensures !ValidateColumn(filter.orderBy) ==> r == Found([], Some(InvalidColumnError(filter.orderBy)))
    ensures ValidateColumn(filter.orderBy) ==>
      var text := FilterQuery(filter);
      && (db.prepare(text).Some? ==> r == Found([], Some(DatabaseError)))
      && (db.prepare(text).None? && db.query(text, QueryParams(filter)).QueryFailed? ==> r == Found([], Some(DatabaseError)))
      && (db.prepare(text).None? && db.query(text, QueryParams(filter)).Rows? ==>
            ScanOutcome(db.query(text, QueryParams(filter)).rows, r.companies, r.err))
  {
    if !ValidateColumn(filter.orderBy) {
      return Found([], Some(InvalidColumnError(filter.orderBy)));
    }
    var text := FilterQuery(filter);
    if db.prepare(text).Some? {
      return Found([], Some(DatabaseError));
    }
    match db.query(text, QueryParams(filter))
    case QueryFailed(_) =>
      return Found([], Some(DatabaseError));
    case Rows(rows) =>
      var companies, err := ScanRows(rows);
      return Found(companies, err);
  }

  /** The columns `SaveCompany` fills, in the order of its statement. */
  const InsertColumns: seq<string> :=
    ["PIB", "delatnost", "vlasnik", "naziv", "adresaSedista", "postanskiBroj", "mesto", "sediste", "maticniBroj"]

  /** `xs` separated by ", ". */
  function JoinComma(xs: seq<string>): string {
    if |xs| == 0 then ""
    else if |xs| == 1 then xs[0]
    else xs[0] + ", " + JoinComma(xs[1..])
  }

  /** The insert statement of `SaveCompany`: the column list and one
      placeholder per column. */
  const InsertStatement: string :=
    "INSERT INTO company\n"
    + "        (" + JoinComma(InsertColumns) + ")\n"
    + "        VALUES(?, ?, ?, ?, ?, ?, ?, ?, ?);"

  /** Which field of a company a column of the `company` table holds, as the
      listing query reads them back (the territorial unit by its code). */
  function ColumnValue(com: Company, column: string): Option<SqlValue> {
    match column
    case "PIB" => Some(SqlInt(com.pib))
    case "delatnost" => Some(SqlText(com.delatnost))
    case "vlasnik" => Some(SqlText(com.vlasnik))
    case "naziv" => Some(SqlText(com.naziv))
    case "adresaSedista" => Some(SqlText(com.adresaSedista))
    case "postanskiBroj" => Some(SqlText(com.postanskiBroj))
    case "mesto" => Some(SqlText(com.mesto))
    case "sediste" => Some(SqlText(com.sediste.oznaka))
    case "maticniBroj" => Some(SqlText(com.maticniBroj))
    case _ => None
  }

  /** The values bound to the insert: for each column of the statement, the
      field of the company that column holds. */
  function InsertParams(com: Company): (params: seq<SqlValue>)
    ensures |params| == |InsertColumns|
    ensures forall i :: 0 <= i < |params| ==> ColumnValue(com, InsertColumns[i]) == Some(params[i])
  {
    [SqlInt(com.pib), SqlText(com.delatnost), SqlText(com.vlasnik), SqlText(com.naziv),
     SqlText(com.adresaSedista), SqlText(com.postanskiBroj), SqlText(com.mesto),
     SqlText(com.sediste.oznaka), SqlText(com.maticniBroj)]
  }

  /** `SaveCompany`: prepare and exec failures both surface as a wrapped
      `DatabaseError`, which `errors.Is` recognises but `==` does not. */
  function SaveCompany(db: Db, com: Company): (r: Option<Error>)
    ensures r.None? <==> db.prepare(InsertStatement).None? && db.exec(InsertStatement, InsertParams(com)).None?
    ensures r.Some? ==> Is(r.value, DatabaseError) && r.value != DatabaseError
  {
    if db.prepare(InsertStatement).Some? then Some(Errorf("", DatabaseError, ""))
    else if db.exec(InsertStatement, InsertParams(com)).Some? then Some(Errorf("", DatabaseError, ""))
    else None
  }
}
