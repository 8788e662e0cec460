/**
 * The `GET /cnpj/:cnpj` route of `server/src/routes/person.ts`: validate the
 * parameter, call the public CNPJ registry once, and map its outcome to a
 * status code and a JSON body.
 */
module PersonRoute {
  import opened Basics
  import opened Text

  const REGISTRY_URL: string := "https://brasilapi.com.br/api/cnpj/v1/"
  const TIMEOUT_MS: nat := 15000
  const MISSING: string := "CNPJ não informado"
  const INVALID: string := "CNPJ inválido"
  const NOT_FOUND: string := "CNPJ não encontrado"
  const TIMED_OUT: string := "Tempo limite excedido ao consultar o CNPJ"
  const FAILED: string := "Não foi possível consultar o CNPJ"

  /** How the registry call settled: its body; an HTTP-client error with status and code; any other throw. */
  datatype Upstream<T> =
    | Fetched(data: T)
    | ClientError(status: Option<int>, code: Option<string>)
    | Crashed

  datatype Body<T> = Data(data: T) | ErrorBody(error: string)

  datatype Reply<T> = Reply(status: int, body: Body<T>)

  /** The registry request: its URL and timeout. */
  datatype Request = Request(url: string, timeoutMs: nat)

  /** `/^\d{14}$/.test(cnpj.replace(/\D/g, ''))` */
  predicate FourteenDigits(cnpj: string)
  {
    |OnlyDigits(cnpj)| == 14
  }

  /**
   * The route, given the parameter and, when the registry is called, how
   * that call settled: the request made, if any, and the reply.
   */
  function Route<T>(cnpj: string, upstream: Upstream<T>): (r: (Option<Request>, Reply<T>))
    ensures cnpj == "" ==> r == (None, Reply(400, ErrorBody(MISSING)))
    ensures cnpj != "" && !FourteenDigits(cnpj) ==> r == (None, Reply(400, ErrorBody(INVALID)))
    ensures r.0.Some? <==> cnpj != "" && FourteenDigits(cnpj)
    ensures r.0.Some? ==> r.0.value == Request(REGISTRY_URL + cnpj, TIMEOUT_MS)
    ensures r.0.Some? && upstream.Fetched? ==> r.1 == Reply(200, Data(upstream.data))
    ensures r.0.Some? && upstream.ClientError? && upstream.status == Some(404) ==> r.1 == Reply(404, ErrorBody(NOT_FOUND))
    ensures r.0.Some? && upstream.ClientError? && upstream.status != Some(404) && upstream.code == Some("ECONNABORTED") ==>
              r.1 == Reply(504, ErrorBody(TIMED_OUT))
    ensures r.0.Some? && upstream.ClientError? && upstream.status != Some(404) && upstream.code != Some("ECONNABORTED") ==>
              r.1 == Reply(500, ErrorBody(FAILED))
    ensures r.0.Some? && upstream.Crashed? ==> r.1 == Reply(500, ErrorBody(FAILED))
    ensures r.1.status in {200, 400, 404, 500, 504}
  {
    if cnpj == "" then (None, Reply(400, ErrorBody(MISSING)))
    else if !FourteenDigits(cnpj) then (None, Reply(400, ErrorBody(INVALID)))
    else
      var reply := match upstream
        case Fetched(data) => Reply(200, Data(data))
        case ClientError(status, code) =>
          if status == Some(404) then Reply(404, ErrorBody(NOT_FOUND))
          else if code == Some("ECONNABORTED") then Reply(504, ErrorBody(TIMED_OUT))
          else Reply(500, ErrorBody(FAILED))
        case Crashed => Reply(500, ErrorBody(FAILED));
      (Some(Request(REGISTRY_URL + cnpj, TIMEOUT_MS)), reply)
  }

  /** Keeping the digits of `x + [sep]`, for a separator that is not a digit. */
  lemma OnlyDigitsSeparator(x: string, sep: char)
    requires !IsDigit(sep)
    ensures OnlyDigits(x + [sep]) == OnlyDigits(x)
  {
    OnlyDigitsAppend(x, [sep]);
    assert OnlyDigits([sep]) == [];
  }

  /**
   * A CNPJ typed with its usual separators, `dd.ddd.ddd/dddd-dd`, passes
   * validation, and the registry is asked for the parameter as it came,
   * separators included, not for its digits.
   */
  lemma {:induction false} FormattedParamForwardedRaw<T>(a: string, b: string, c: string, d: string, e: string, upstream: Upstream<T>)
    requires AllDigits(a) && AllDigits(b) && AllDigits(c) && AllDigits(d) && AllDigits(e)
    requires |a| == 2 && |b| == 3 && |c| == 3 && |d| == 4 && |e| == 2
    ensures var p := a + "." + b + "." + c + "/" + d + "-" + e;
            Route(p, upstream).0 == Some(Request(REGISTRY_URL + p, TIMEOUT_MS))
  {
    OnlyDigitsOfDigits(a);
    OnlyDigitsOfDigits(b);
    OnlyDigitsOfDigits(c);
    OnlyDigitsOfDigits(d);
    OnlyDigitsOfDigits(e);
    OnlyDigitsSeparator(a, '.');
    OnlyDigitsAppend(a + ".", b);
    OnlyDigitsSeparator(a + "." + b, '.');
    OnlyDigitsAppend(a + "." + b + ".", c);
    OnlyDigitsSeparator(a + "." + b + "." + c, '/');
    OnlyDigitsAppend(a + "." + b + "." + c + "/", d);
    OnlyDigitsSeparator(a + "." + b + "." + c + "/" + d, '-');
    OnlyDigitsAppend(a + "." + b + "." + c + "/" + d + "-", e);
    var p := a + "." + b + "." + c + "/" + d + "-" + e;
    assert |OnlyDigits(p)| == 14;
  }

  /** A parameter with fewer than 14 digits is refused without calling the registry. */
  lemma {:induction false} ShortParamNoUpstream<T>(cnpj: string, upstream: Upstream<T>)
    requires AllDigits(cnpj) && |cnpj| < 14
    ensures Route(cnpj, upstream).0.None?
    ensures Route(cnpj, upstream).1.status == 400
  {
    OnlyDigitsOfDigits(cnpj);
  }
}
