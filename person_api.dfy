/**
 * The CNPJ lookup client of `src/services/api/person.ts`: the request path
 * carries only the digits of what the user typed, one attempt is made, and
 * each kind of failure becomes a fixed message or the server's own.
 */
module PersonApi {
  import opened Basics
  import opened Text

  const NOT_FOUND: string := "CNPJ não encontrado"
  const LOOKUP_FAILED: string := "Não foi possível consultar o CNPJ"
  const CLIENT_FAILED: string := "Erro ao consultar CNPJ"

  /**
   * How the one request settled: a response body; an HTTP-client error,
   * with the response's status and the `error` field of its body when there
   * was a response; or any other throw.
   */
  datatype HttpOutcome<T> =
    | Response(data: T)
    | HttpError(status: Option<int>, errorField: Option<string>)
    | OtherError

  /** `` `person/cnpj/${cnpj.replace(/\D/g, '')}` `` */
  function RequestPath(cnpj: string): (p: string)
    ensures p == "person/cnpj/" + OnlyDigits(cnpj)
    ensures AllDigits(p[|"person/cnpj/"|..])
  {
    "person/cnpj/" + OnlyDigits(cnpj)
  }

  /** `consultarCNPJ(cnpj)`: the path it requests and how it settles. */
  function ConsultarCnpj<T>(cnpj: string, outcome: HttpOutcome<T>): (r: (string, Result<T>))
    ensures r.0 == RequestPath(cnpj)
    ensures outcome.Response? ==> r.1 == Ok(outcome.data)
    ensures outcome.HttpError? && outcome.status == Some(404) ==> r.1 == Fail(NOT_FOUND)
    ensures outcome.HttpError? && outcome.status != Some(404) ==>
              r.1 == Fail(if Truthy(outcome.errorField) then outcome.errorField.value else LOOKUP_FAILED)
    ensures outcome.OtherError? ==> r.1 == Fail(CLIENT_FAILED)
  {
    var result := match outcome
      case Response(data) => Ok(data)
      case HttpError(status, errorField) =>
        if status == Some(404) then Fail(NOT_FOUND) else Fail(OrElse(errorField, LOOKUP_FAILED))
      case OtherError => Fail(CLIENT_FAILED);
    (RequestPath(cnpj), result)
  }

  /** Formatting typed by the user never reaches the request: formatted and bare input ask for the same path. */
  lemma {:induction false} PathIgnoresFormatting(digits: string, separators: string)
    requires AllDigits(digits)
    requires forall i :: 0 <= i < |separators| ==> !IsDigit(separators[i])
    ensures RequestPath(separators + digits) == RequestPath(digits)
    ensures RequestPath(digits + separators) == RequestPath(digits)
  {
    OnlyDigitsAppend(separators, digits);
    OnlyDigitsAppend(digits, separators);
    OnlyDigitsOfNonDigits(separators);
    OnlyDigitsOfDigits(digits);
  }
}
