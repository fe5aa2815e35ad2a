/** The HTTP responses handlers produce through the gin context: a status,
    a JSON body (or none), and whether the handler chain was aborted. */
module Http {
  import opened Model

  const StatusOK: int := 200
  const StatusBadRequest: int := 400
  const StatusUnauthorized: int := 401
  const StatusNotFound: int := 404
  const StatusInternalServerError: int := 500

  datatype Body =
    | NoBody
    /** `{"error": error}` (both `gin.H{"error": ...}` and `ErrorResponse`). */
    | ErrorBody(error: string)
    /** `JwtResponse`: `{"jwt": jwt}`. */
    | JwtBody(jwt: string)
    | CompaniesBody(companies: seq<Company>)
    | CompanyBody(company: Company)

  /** `c.JSON(status, body)` leaves `aborted` false; `AbortWithStatusJSON`
      and `AbortWithStatus` set it. */
  datatype Response = Response(status: int, body: Body, aborted: bool)
}
