/**
 * The OAuth callback URL (src/app/api/auth/callback-url/route.ts, and the same expression
 * at the end of scripts/ensure-env.js): a base URL with one trailing slash removed and the
 * provider's callback path appended.
 */
module CallbackUrl {
  import opened Wrappers
  import opened Strings

  const CALLBACK_PATH := "/api/auth/callback/google"
  const DEFAULT_HOST := "localhost:3000"

  /** `base.replace(/\/$/, "") + "/api/auth/callback/google"`. */
  function WithCallbackPath(base: string): (url: string)
    ensures EndsWith(url, CALLBACK_PATH)
    ensures var stem := url[..|url| - |CALLBACK_PATH|];
            && (EndsWith(base, "/") ==> stem + "/" == base)
            && (!EndsWith(base, "/") ==> stem == base)
  {
    var stem := if EndsWith(base, "/") then base[..|base| - 1] else base;
    assert (stem + CALLBACK_PATH)[..|stem|] == stem;
    stem + CALLBACK_PATH
  }

  /** Only one slash goes: a base ending in `//` keeps one of them. */
  lemma OneSlashRemoved(base: string)
    ensures WithCallbackPath(base + "//") == base + "/" + CALLBACK_PATH
  {
    var url := WithCallbackPath(base + "//");
    assert url[..|url| - |CALLBACK_PATH|] == base + "/";
    assert url[|url| - |CALLBACK_PATH|..] == CALLBACK_PATH;
    assert url == url[..|url| - |CALLBACK_PATH|] + url[|url| - |CALLBACK_PATH|..];
  }

  /** The request headers the route reads; `None` for an absent header. */
  datatype Headers = Headers(forwardedProto: Option<string>, forwardedHost: Option<string>, host: Option<string>)

  /** The base URL: `NEXTAUTH_URL` when non-empty, else one rebuilt from the forwarding headers. */
  function Base(nextAuthUrl: Option<string>, h: Headers): (base: string)
    ensures Truthy(nextAuthUrl) ==> base == nextAuthUrl.value
    ensures !Truthy(nextAuthUrl) ==>
              base == Or(h.forwardedProto, "http") + "://" + Or(h.forwardedHost, Or(h.host, DEFAULT_HOST))
  {
    Or(nextAuthUrl, Or(h.forwardedProto, "http") + "://" + Or(h.forwardedHost, Or(h.host, DEFAULT_HOST)))
  }

  /** `GET`: `{ callbackUrl }`. */
  function CallbackUrlGet(nextAuthUrl: Option<string>, h: Headers): (url: string)
    ensures EndsWith(url, CALLBACK_PATH)
  {
    WithCallbackPath(Base(nextAuthUrl, h))
  }

  /** Without `NEXTAUTH_URL` or forwarding headers the callback is on `http://localhost:3000`. */
  lemma LocalDefault()
    ensures CallbackUrlGet(None, Headers(None, None, None)) == "http://" + DEFAULT_HOST + CALLBACK_PATH
  {
    var h := Headers(None, None, None);
    var base := "http://" + DEFAULT_HOST;
    assert Base(None, h) == base;
    assert !EndsWith(base, "/") by {
      assert base[|base| - 1] == '0';
    }
  }
}
