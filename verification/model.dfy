/** internal/model: the request and record types the core passes around,
    and the `sex` field validator. */
module Model {

  /** `model.CredentialsDto`. The login code reads a `PIB` field that the
      struct does not declare; it is kept here as `pib` so that the code
      reading it can be modelled as written. */
  datatype CredentialsDto = CredentialsDto(username: string, password: string, service: string, pib: string)

  /** `model.Nstj`: a territorial unit (code and name). */
  datatype Nstj = Nstj(oznaka: string, naziv: string)

  /** `model.Company`. `Delatnost` (an enumeration defined elsewhere) is
      kept as its string form. */
  datatype Company = Company(
    vlasnik: string,
    pib: int,
    maticniBroj: string,
    naziv: string,
    adresaSedista: string,
    mesto: string,
    postanskiBroj: string,
    delatnost: string,
    sediste: Nstj)

  /** `model.CompanyFilter`: the normalised listing query. */
  datatype CompanyFilter = CompanyFilter(
    orderBy: string,
    asc: bool,
    page: int,
    mesto: string,
    sediste: string,
    delatnost: string)

  /** The two values of the `sex` field. */
  datatype Sex = Male | Female

  function SexName(x: Sex): string {
    match x
    case Male => "MALE"
    case Female => "FEMALE"
  }

  /** `ValidateSex`: accept a field value only if it spells one of the two
      names exactly (case-sensitive, no surrounding spaces). */
  function ValidateSex(field: string): (ok: bool)
    ensures ok <==> exists x: Sex :: SexName(x) == field
  {
    assert SexName(Male) == "MALE" && SexName(Female) == "FEMALE";
    !(field != "MALE" && field != "FEMALE")
  }

  /** Both names are accepted, and nothing that differs in case or spacing. */
  lemma ValidateSexExamples()
    ensures ValidateSex("MALE") && ValidateSex("FEMALE")
    ensures !ValidateSex("") && !ValidateSex("male") && !ValidateSex("Male") && !ValidateSex(" MALE")
    ensures !ValidateSex("female") && !ValidateSex("FEMALE ")
  {
  }
}
