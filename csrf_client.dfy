/** The page's CSRF token (static/portal.js:9-28): the content of the
    `csrf-token` meta tag when it is non-empty, otherwise the URI-decoded
    value of the first cookie named `csrf`, otherwise "". Every request the
    page posts carries it as the `X-CSRF-Token` header when it is non-empty.

    The meta tag is its `content` (`None` when the tag is absent), the
    cookie jar is the `document.cookie` string, and `decodeURIComponent` is
    the parameter `decode`, which gives `None` where the call throws a
    `URIError`. */
module CsrfClient {
  import opened Wrappers
  import opened Strings
  import ServerCsrf

  type Decode = string -> Option<string>

  /** `document.cookie ? document.cookie.split(';') : []`. */
  function CookieSegments(cookie: string): seq<string> {
    if cookie == "" then [] else Split(cookie, ';')
  }

  /** `const [k, v] = c.split('=')`: the text before the first '=' ... */
  function KeyOf(segment: string): string {
    Split(segment, '=')[0]
  }

  /** ... and the text between the first and the second '=', or "" when the
      segment has no '=' (`v || ''`). */
  function ValueOf(segment: string): string {
    var parts := Split(segment, '=');
    if |parts| > 1 then parts[1] else ""
  }

  /** `k && k.trim() === 'csrf'`. */
  predicate IsCsrfSegment(segment: string) {
    KeyOf(segment) != "" && Trim(KeyOf(segment)) == "csrf"
  }

  /** The cookie fallback: the decoded value of the first `csrf` segment; a
      decoding error is caught and gives "" without looking further. */
  function CookieLookup(segments: seq<string>, decode: Decode): string {
    if segments == [] then ""
    else if IsCsrfSegment(segments[0]) then decode(ValueOf(segments[0])).GetOr("")
    else CookieLookup(segments[1..], decode)
  }

  /** What `getCSRFToken()` returns. */
  function CsrfToken(meta: Option<string>, cookie: string, decode: Decode): string {
    if meta.Some? && meta.value != "" then meta.value
    else CookieLookup(CookieSegments(cookie), decode)
  }

  /** `getCSRFToken()`: the meta tag, then a scan of the cookie segments that
      returns at the first `csrf` one. */
  method GetCsrfToken(meta: Option<string>, cookie: string, decode: Decode) returns (token: string)
    ensures token == CsrfToken(meta, cookie, decode)
  {
    if meta.Some? && meta.value != "" {
      return meta.value;
    }
    var cookies := CookieSegments(cookie);
    var i := 0;
    while i < |cookies|
      invariant 0 <= i <= |cookies|
      invariant CookieLookup(cookies[i..], decode) == CookieLookup(cookies, decode)
    {
      assert cookies[i..][1..] == cookies[i + 1..];
      if IsCsrfSegment(cookies[i]) {
        var decoded := decode(ValueOf(cookies[i]));
        if decoded.None? {
          return "";
        }
        return decoded.value;
      }
      i := i + 1;
    }
    return "";
  }

  /** `csrfHeaders()`: the one header `X-CSRF-Token`, present exactly when
      the token is non-empty. */
  function CsrfHeaders(token: string): (h: map<string, string>)
    ensures "X-CSRF-Token" in h <==> token != ""
    ensures forall k :: k in h ==> k == "X-CSRF-Token" && h[k] == token
  {
    if token != "" then map["X-CSRF-Token" := token] else map[]
  }

  /** The header a server reads from those headers. */
  function HeaderSent(h: map<string, string>): Option<string> {
    if "X-CSRF-Token" in h then Some(h["X-CSRF-Token"]) else None
  }

  // ---------- Properties ----------

  /** A non-empty meta tag wins over any cookie. */
  lemma MetaWins(meta: string, cookie: string, decode: Decode)
    requires meta != ""
    ensures CsrfToken(Some(meta), cookie, decode) == meta
  {
  }

  /** The first `csrf` segment decides: earlier segments are not `csrf`
      ones, later ones are not looked at, and a value that fails to decode
      gives "". */
  lemma {:induction false} FirstCsrfSegmentDecides(pre: seq<string>, segment: string, post: seq<string>, decode: Decode)
    requires forall i :: 0 <= i < |pre| ==> !IsCsrfSegment(pre[i])
    requires IsCsrfSegment(segment)
    ensures CookieLookup(pre + [segment] + post, decode) == decode(ValueOf(segment)).GetOr("")
    decreases |pre|
  {
    if pre == [] {
      assert pre + [segment] + post == [segment] + post;
    } else {
      assert (pre + [segment] + post)[1..] == pre[1..] + [segment] + post;
      FirstCsrfSegmentDecides(pre[1..], segment, post, decode);
    }
  }

  /** With no `csrf` segment the fallback gives "". */
  lemma {:induction false} NoCsrfSegmentEmpty(segments: seq<string>, decode: Decode)
    requires forall i :: 0 <= i < |segments| ==> !IsCsrfSegment(segments[i])
    ensures CookieLookup(segments, decode) == ""
  {
    if segments != [] {
      NoCsrfSegmentEmpty(segments[1..], decode);
    }
  }

  /** The value is cut at a second '=': for `k=v=w` the value read is `v`. */
  lemma ValueStopsAtSecondEquals(k: string, v: string, w: string)
    requires '=' !in k && '=' !in v
    ensures KeyOf(k + "=" + v + "=" + w) == k
    ensures ValueOf(k + "=" + v + "=" + w) == v
  {
    var s := k + "=" + v + "=" + w;
    assert s == k + ['='] + (v + ['='] + w);
    SplitAround(k, v + ['='] + w, '=');
    SplitAround(v, w, '=');
    SplitNoSep(k, '=');
    SplitNoSep(v, '=');
  }

  /** A cookie jar `a; csrf=v`, whose first cookie is not `csrf`, gives the
      decoded `v` when there is no meta tag (the space after ';' is trimmed
      from the key). */
  lemma SecondCookie(a: string, v: string, decode: Decode)
    requires ';' !in a && ';' !in v && '=' !in v
    requires !IsCsrfSegment(a)
    ensures CsrfToken(None, a + "; csrf=" + v, decode) == decode(v).GetOr("")
  {
    var seg := " csrf=" + v;
    assert a + "; csrf=" + v == a + [';'] + seg;
    SplitAround(a, seg, ';');
    SplitNoSep(a, ';');
    SplitNoSep(seg, ';');
    CsrfSegment(v);
    FirstCsrfSegmentDecides([a], seg, [], decode);
    assert [a] + [seg] + [] == [a, seg];
  }

  /** ` csrf=v` is a `csrf` segment with value `v`. */
  lemma CsrfSegment(v: string)
    requires '=' !in v
    ensures IsCsrfSegment(" csrf=" + v) && ValueOf(" csrf=" + v) == v
  {
    var seg := " csrf=" + v;
    assert seg == " csrf" + ['='] + v;
    SplitAround(" csrf", v, '=');
    SplitNoSep(" csrf", '=');
    SplitNoSep(v, '=');
    assert KeyOf(seg) == " csrf";
    TrimCsrfKey();
  }

  lemma TrimCsrfKey()
    ensures Trim(" csrf") == "csrf"
  {
    assert " csrf" == [' '] + "csrf";
    TrimOneLeading(JavaScript, ' ', "csrf");
  }

  /** On an endpoint that takes its token from the header only, a request
      with the page's headers is accepted exactly when the page found a
      non-empty token equal to the `csrf` cookie the server reads. */
  lemma HeadersAcceptedIffTokenMatchesCookie(token: string, cookie: Option<string>)
    ensures var header := HeaderSent(CsrfHeaders(token));
      ServerCsrf.ValidateCsrf(header.GetOr(""), header, cookie) <==> token != "" && cookie == Some(token)
  {
    ServerCsrf.HeaderOnlyCall(HeaderSent(CsrfHeaders(token)), cookie);
  }
}
