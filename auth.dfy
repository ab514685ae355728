/**
 * Bearer-token authentication: the token is checked once on construction and
 * rendered as an `Authorization` header.
 */
module Auth {
  import opened Wrappers
  import opened Text
  import opened Exceptions

  /** A `BearerAuth` holding a token that is never empty. */
  datatype BearerAuth = BearerAuth(token: string)
  {
    predicate Valid()
    {
      token != ""
    }

    /** `get_headers()`: exactly one header, `Authorization: Bearer <token>`. */
    function GetHeaders(): (r: map<string, string>)
      ensures r.Keys == {"Authorization"}
      ensures StartsWith(r["Authorization"], "Bearer ")
      ensures r["Authorization"][|"Bearer "|..] == token
    {
      map["Authorization" := "Bearer " + token]
    }

    /** `apply_to_headers(headers)`: sets (or overwrites) the Authorization header and nothing else. */
    method ApplyToHeaders(headers: Headers)
      modifies headers
      ensures headers.entries == Assigned(old(headers.entries), "Authorization", "Bearer " + token)
    {
      headers.entries := Assigned(headers.entries, "Authorization", "Bearer " + token);
    }
  }

  /** `BearerAuth(token)`: refuses the empty token, otherwise stores it unchanged. */
  function New(token: string): (r: Result<BearerAuth, Error>)
    ensures r.Failure? <==> token == ""
    ensures r.Failure? ==> r.error == ValueError("Token cannot be empty")
    ensures r.Success? ==> r.value.token == token && r.value.Valid()
  {
    if token == "" then Failure(ValueError("Token cannot be empty")) else Success(BearerAuth(token))
  }

  /**
   * The header names an `httpx.Headers` compares case-insensitively: assigning
   * `headers[name] = value` replaces every entry whose name has the same lower-case form.
   */
  function Assigned(entries: map<string, string>, name: string, value: string): (r: map<string, string>)
    ensures name in r && r[name] == value
    ensures forall k :: k in r && k != name ==> k in entries && r[k] == entries[k] && Lower(k) != Lower(name)
    ensures forall k :: k in entries && Lower(k) != Lower(name) ==> k in r
  {
    (map k | k in entries && Lower(k) != Lower(name) :: entries[k])[name := value]
  }

  /** A mutable header collection, as the `httpx.Headers` that `apply_to_headers` updates in place. */
  class Headers {
    var entries: map<string, string>

    constructor(entries: map<string, string>)
      ensures this.entries == entries
    {
      this.entries := entries;
    }
  }

  /** After `apply_to_headers`, the collection holds exactly what `get_headers` returns for Authorization. */
  lemma AppliedAgreesWithGetHeaders(auth: BearerAuth, entries: map<string, string>)
    ensures Assigned(entries, "Authorization", "Bearer " + auth.token)["Authorization"] == auth.GetHeaders()["Authorization"]
    ensures Assigned(map[], "Authorization", "Bearer " + auth.token) == auth.GetHeaders()
  {
  }
}
