/** internal/controllers/companyController.go: the listing endpoint's
    query-parameter normalisation and error mapping, and the single-company
    endpoint's `:pib` parsing. The company service is a pass-through to the
    repository, so the repository model stands in for it where the two are
    composed. */
module CompanyController {
  import opened Wrappers
  import opened GoErrors
  import opened GoStrconv
  import opened Model
  import opened Http
  import opened CompanyRepo

  /** The URL query: every parameter with all its values, in order. */
  type Query = map<string, seq<string>>

  /** `c.GetQuery(key)`: the first value and whether the key is present
      with at least one value. */
  function GetQuery(q: Query, key: string): (string, bool) {
    if key in q && |q[key]| > 0 then (q[key][0], true) else ("", false)
  }

  /** `c.Query(key)`: the first value, or `""`. */
  function QueryValue(q: Query, key: string): string {
    GetQuery(q, key).0
  }

  /** The `page` parameter: 0 unless it is present and parses as a
      non-negative int64. */
  function Page(q: Query): (page: int)
    ensures page >= 0 && InInt64(page)
    ensures !GetQuery(q, "page").1 ==> page == 0
    ensures GetQuery(q, "page").1 ==>
      var parsed := Atoi(GetQuery(q, "page").0);
      page == if parsed.Some? && parsed.value >= 0 then parsed.value else 0
  {
    var (pageStr, ok) := GetQuery(q, "page");
    if !ok then 0
    else
      match Atoi(pageStr)
      case None => 0
      case Some(page) => if page < 0 then 0 else page
  }

  /** The filter `FindCompanies` hands to the service. */
  function ListingFilter(q: Query): (f: CompanyFilter)
    ensures f.page == Page(q)
    ensures GetQuery(q, "order").1 ==> f.orderBy == GetQuery(q, "order").0
    ensures !GetQuery(q, "order").1 ==> f.orderBy == "PIB"
    ensures !f.asc <==> QueryValue(q, "asc") == "false"
    ensures f.delatnost == QueryValue(q, "delatnost")
    ensures f.sediste == QueryValue(q, "sediste")
    ensures f.mesto == QueryValue(q, "mesto")
  {
    var (column, ok) := GetQuery(q, "order");
    var (ascStr, _) := GetQuery(q, "asc");
    CompanyFilter(
      orderBy := if ok then column else "PIB",
      asc := ascStr != "false",
      page := Page(q),
      mesto := QueryValue(q, "mesto"),
      sediste := QueryValue(q, "sediste"),
      delatnost := QueryValue(q, "delatnost"))
  }

  /** Whatever the request, the listing window starts at a non-negative
      multiple of the page size. */
  lemma ListingOffsetIsPageAligned(q: Query)
    ensures Offset(ListingFilter(q).page) >= 0
    ensures Offset(ListingFilter(q).page) % PageSize == 0
  {
  }

  /** Whatever the request, the statement text of an accepted listing is the
      fixed prefix followed only by letters, digits, spaces and `;`. */
  lemma {:induction false} ListingQueryIsSafe(q: Query)
    requires ValidateColumn(ListingFilter(q).orderBy)
    ensures FilterQuery(ListingFilter(q))[..|QueryPrefix|] == QueryPrefix
    ensures SqlSafeText(FilterQuery(ListingFilter(q))[|QueryPrefix|..])
  {
    QueryTextIsSafe(ListingFilter(q));
  }

  /** The status mapping of `FindCompanies`: every error (a database error,
      an invalid filter or any other) and a recovered panic give a bare
      500; success gives 200 with the list. */
  function ListingResponse(result: FindResult): (r: Response)
    ensures r.status == StatusOK <==> result.Found? && result.err.None?
    ensures r.status == StatusOK ==> r == Response(StatusOK, CompaniesBody(result.companies), false)
    ensures r.status != StatusOK ==> r == Response(StatusInternalServerError, NoBody, true)
  {
    match result
    case Panicked => Response(StatusInternalServerError, NoBody, true)
    case Found(companies, err) =>
      if err.Some? && Is(err.value, DatabaseError) then Response(StatusInternalServerError, NoBody, true)
      else if err.Some? && Is(err.value, InvalidFilter) then Response(StatusInternalServerError, NoBody, true)
      else if err.Some? then Response(StatusInternalServerError, NoBody, true)
      else Response(StatusOK, CompaniesBody(companies), false)
  }

  /** `FindCompanies`: the handler calls the repository as written, through
      the service; a panic there is recovered as a bare 500. The answer is
      200 exactly when the order column is whitelisted, the statement
      prepares, the query returns rows and every row scans, and the body
      then holds exactly those companies. */
  method FindCompanies(q: Query, db: Db) returns (r: Response)
    ensures var filter := ListingFilter(q);
      var text := ListingQueryAsWritten(filter);
      r.status == StatusOK <==>
        && ValidateColumn(filter.orderBy)
        && db.prepare(text).None?
        && db.query(text, QueryParams(filter)).Rows?
        && AllScanned(db.query(text, QueryParams(filter)).rows)
    ensures r.status == StatusOK ==>
      var filter := ListingFilter(q);
      var rows := db.query(ListingQueryAsWritten(filter), QueryParams(filter)).rows;
      AllScanned(rows) && r == Response(StatusOK, CompaniesBody(ScannedCompanies(rows)), false)
    ensures r.status != StatusOK ==> r == Response(StatusInternalServerError, NoBody, true)
  {
    var filter := ListingFilter(q);
    var result := CompanyRepo.FindCompaniesAsWritten(db, filter);
    if result.Found? && ValidateColumn(filter.orderBy) {
      var text := ListingQueryAsWritten(filter);
      if db.prepare(text).None? && db.query(text, QueryParams(filter)).Rows? {
        ScanOutcomeComplete(db.query(text, QueryParams(filter)).rows, result.companies, result.err);
      }
    }
    r := ListingResponse(result);
  }

  /** The same handler over the corrected repository: the same answers, for
      the statement with the exact offset. */
  method FindCompaniesCorrected(q: Query, db: Db) returns (r: Response)
    ensures var filter := ListingFilter(q);
      var text := FilterQuery(filter);
      r.status == StatusOK <==>
        && ValidateColumn(filter.orderBy)
        && db.prepare(text).None?
        && db.query(text, QueryParams(filter)).Rows?
        && AllScanned(db.query(text, QueryParams(filter)).rows)
    ensures r.status == StatusOK ==>
      var filter := ListingFilter(q);
      var rows := db.query(FilterQuery(filter), QueryParams(filter)).rows;
      AllScanned(rows) && r == Response(StatusOK, CompaniesBody(ScannedCompanies(rows)), false)
    ensures r.status != StatusOK ==> r == Response(StatusInternalServerError, NoBody, true)
  {
    var filter := ListingFilter(q);
    var result := CompanyRepo.FindCompanies(db, filter);
    if ValidateColumn(filter.orderBy) {
      var text := FilterQuery(filter);
      if db.prepare(text).None? && db.query(text, QueryParams(filter)).Rows? {
        ScanOutcomeComplete(db.query(text, QueryParams(filter)).rows, result.companies, result.err);
      }
    }
    r := ListingResponse(result);
  }

  /** The service's answer for one company: the company (zero value on
      error) and the error. */
  datatype CompanyLookup = CompanyLookup(company: Company, err: Option<Error>)

  /** `FindOne` for path parameter `pibParam`. */
  function FindOne(pibParam: string, findOne: int -> CompanyLookup): (r: Response)
    ensures Atoi(pibParam).None? ==>
      r == Response(StatusBadRequest, ErrorBody("Provided pib " + pibParam + " is invalid"), true)
    ensures Atoi(pibParam).Some? ==>
      var lookup := findOne(Atoi(pibParam).value);
      && (lookup.err.Some? && Is(lookup.err.value, NoSuchPibError) ==>
            r == Response(StatusNotFound, ErrorBody("Couldnt' find company with pib " + pibParam), true))
      && (lookup.err.Some? && !Is(lookup.err.value, NoSuchPibError) ==>
            r == Response(StatusInternalServerError, ErrorBody("Internal server error"), true))
      && (lookup.err.None? ==> r == Response(StatusOK, CompanyBody(lookup.company), false))
  {
    match Atoi(pibParam)
    case None => Response(StatusBadRequest, ErrorBody("Provided pib " + pibParam + " is invalid"), true)
    case Some(pib) =>
      var lookup := findOne(pib);
      if lookup.err.Some? && Is(lookup.err.value, NoSuchPibError) then
        Response(StatusNotFound, ErrorBody("Couldnt' find company with pib " + pibParam), true)
      else if lookup.err.Some? then
        Response(StatusInternalServerError, ErrorBody("Internal server error"), true)
      else
        Response(StatusOK, CompanyBody(lookup.company), false)
  }

  /** For a PIB written in canonical decimal form, the handler looks up the
      number it denotes, and the not-found message names exactly that
      number's `%d` rendering. */
  lemma {:induction false} FindOneNamesLookedUpPib(pibParam: string, findOne: int -> CompanyLookup)
    requires CanonicalDecimal(pibParam) && DigitsValue(pibParam) <= MaxInt64
    ensures Atoi(pibParam) == Some(DigitsValue(pibParam))
    ensures var lookup := findOne(DigitsValue(pibParam));
      lookup.err.Some? && Is(lookup.err.value, NoSuchPibError) ==>
        FindOne(pibParam, findOne)
          == Response(StatusNotFound, ErrorBody("Couldnt' find company with pib " + Itoa(DigitsValue(pibParam))), true)
  {
    AtoiOfCanonical(pibParam);
  }
}
