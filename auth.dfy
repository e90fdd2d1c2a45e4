/**
 * internal/middleware/auth.go: the request decision of the Authenticate closure, as a function of
 * the configured key and the request's X-API-Key header.
 */
module Auth {

  /** Either the wrapped handler runs, or a JSON error response is written with this code, message and status. */
  datatype Decision = CallNext | Deny(code: string, message: string, status: int)

  const Unauthorized := 401

  function Authenticate(apiKey: string, header: string): (d: Decision)
    ensures d.CallNext? <==> apiKey == "" || header == apiKey
    ensures apiKey != "" && header == "" ==> d == Deny("ERR_UNAUTHORIZED", "Missing API key", Unauthorized)
    ensures apiKey != "" && header != "" && header != apiKey ==>
              d == Deny("ERR_UNAUTHORIZED", "Invalid API key", Unauthorized)
  {
    if apiKey == "" then CallNext
    else if header == "" then Deny("ERR_UNAUTHORIZED", "Missing API key", Unauthorized)
    else if header != apiKey then Deny("ERR_UNAUTHORIZED", "Invalid API key", Unauthorized)
    else CallNext
  }

  /** With no key configured (local mode) every request passes; with a key, only that exact header does. */
  lemma OnlyTheKeyPasses(apiKey: string, h1: string, h2: string)
    ensures apiKey == "" ==> Authenticate(apiKey, h1).CallNext?
    ensures apiKey != "" && Authenticate(apiKey, h1).CallNext? && Authenticate(apiKey, h2).CallNext? ==> h1 == h2
  {
  }

  /** Every denial is a 401 ERR_UNAUTHORIZED with one of the two messages. */
  lemma DenialsAreUnauthorized(apiKey: string, header: string)
    ensures Authenticate(apiKey, header).Deny? ==>
              var d := Authenticate(apiKey, header);
              d.code == "ERR_UNAUTHORIZED" && d.status == 401 && d.message in {"Missing API key", "Invalid API key"}
  {
  }
}
