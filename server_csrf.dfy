/** The server's CSRF check (server.py:63-69): a request is accepted when the
    token it carries in its form, or else in its `X-CSRF-Token` header, is
    non-empty and equal to its `csrf` cookie. A missing header or cookie is
    `None`; Python's truthiness makes both `None` and `""` false. */
module ServerCsrf {
  import opened Wrappers

  /** Python truthiness of an optional string. */
  predicate Truthy(s: Option<string>) { s.Some? && s.value != "" }

  /** `(csrf_token and csrf_token == cookie_token) or
      (header_token and header_token == cookie_token)`, read as a boolean.
      The `except` branch is unreachable here: reading a header or a cookie
      that is absent gives `None` and raises nothing. */
  function ValidateCsrf(csrfToken: string, header: Option<string>, cookie: Option<string>): bool {
    (Truthy(Some(csrfToken)) && Some(csrfToken) == cookie) || (Truthy(header) && header == cookie)
  }

  /** The guard holds exactly when one of the two tokens is non-empty and
      equal to the cookie; in particular the cookie is then present and
      non-empty. */
  lemma ValidateCsrfMeaning(csrfToken: string, header: Option<string>, cookie: Option<string>)
    ensures ValidateCsrf(csrfToken, header, cookie) <==>
      cookie.Some? && cookie.value != "" && (cookie.value == csrfToken || header == cookie)
  {
  }

  /** Without a cookie nothing is accepted. */
  lemma NoCookieRejects(csrfToken: string, header: Option<string>)
    ensures !ValidateCsrf(csrfToken, header, None)
    ensures !ValidateCsrf(csrfToken, header, Some(""))
  {
  }

  /** With an empty form token and no (or an empty) header nothing is accepted. */
  lemma EmptyTokensReject(header: Option<string>, cookie: Option<string>)
    requires !Truthy(header)
    ensures !ValidateCsrf("", header, cookie)
  {
  }

  /** The JSON endpoints pass the header itself as the form token
      (`request.headers.get("X-CSRF-Token", "")`, e.g. server.py:266): the
      check then holds iff the header is present, non-empty and equal to the
      cookie. */
  lemma HeaderOnlyCall(header: Option<string>, cookie: Option<string>)
    ensures ValidateCsrf(header.GetOr(""), header, cookie) <==> Truthy(header) && header == cookie
  {
  }
}
