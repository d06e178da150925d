/**
 * The session-cookie locator: finds the backend's session cookie in the request's
 * cookie store under its plain name or, failing that, under its `__Secure-` variant,
 * and renders it as a Cookie-header pair.
 */
module CookieUtils {
  import opened Wrappers

  /** The request's cookie store, from cookie name to cookie value. */
  type CookieJar = map<string, string>

  /** What the cookie store's `get` hands back: the cookie's name and value. */
  datatype Cookie = Cookie(name: string, value: string)

  /** The name the backend uses when cookies are not marked secure (development). */
  const PlainName: string := "backend.session_token"

  /** The name the backend uses for secure cookies (production). */
  const SecureName: string := "__Secure-backend.session_token"

  /** The candidate names, in the order they are tried. */
  const CandidateNames: seq<string> := [PlainName, SecureName]

  /** The cookie store's `get(name)`: the cookie if one by that name is present. */
  function Get(jar: CookieJar, name: string): (r: Option<Cookie>)
    ensures r.Some? <==> name in jar
    ensures r.Some? ==> r.value == Cookie(name, jar[name])
  {
    if name in jar then Some(Cookie(name, jar[name])) else None
  }

  /** findSessionCookie: the plain-named cookie, otherwise the secure-prefixed one, otherwise none. */
  function FindSessionCookie(jar: CookieJar): (r: Option<Cookie>)
    ensures PlainName in jar ==> r == Some(Cookie(PlainName, jar[PlainName]))
    ensures PlainName !in jar && SecureName in jar ==> r == Some(Cookie(SecureName, jar[SecureName]))
    ensures r.None? <==> PlainName !in jar && SecureName !in jar
    ensures r.Some? ==> r.value.name in CandidateNames && r.value.name in jar && r.value.value == jar[r.value.name]
  {
    var plain := Get(jar, PlainName);
    if plain.None? then Get(jar, SecureName) else plain
  }

  /** The cookie-pair `name=value` (section 4.2.1 of RFC 6265). */
  function CookiePair(c: Cookie): (h: string)
    ensures |h| == |c.name| + 1 + |c.value|
    ensures h[..|c.name|] == c.name && h[|c.name|] == '=' && h[|c.name| + 1..] == c.value
  {
    c.name + "=" + c.value
  }

  /** getSessionCookieHeader: the located cookie as a cookie-pair, or the empty string. */
  function SessionCookieHeader(jar: CookieJar): (h: string)
    ensures FindSessionCookie(jar).Some? ==> h == CookiePair(FindSessionCookie(jar).value)
    ensures h == "" <==> FindSessionCookie(jar).None?
  {
    var c := FindSessionCookie(jar);
    if c.Some? then CookiePair(c.value) else ""
  }

  /** hasSessionCookie: whether a session cookie was located. */
  function HasSessionCookie(jar: CookieJar): (b: bool)
    ensures b <==> FindSessionCookie(jar).Some?
    ensures b <==> SessionCookieHeader(jar) != ""
    ensures b <==> PlainName in jar || SecureName in jar
  {
    FindSessionCookie(jar).Some?
  }

  // ---------------------------------------------------------------------------
  // The locator as a search over an ordered list of candidate names.

  /** The position of the first name in `names` that the store holds, or `|names|` when it holds none. */
  function FirstPresentIndex(names: seq<string>, jar: CookieJar): (k: nat)
    ensures k <= |names|
    ensures forall j | 0 <= j < k :: names[j] !in jar
    ensures k < |names| ==> names[k] in jar
    decreases |names|
  {
    if names == [] then 0
    else if names[0] in jar then 0
    else 1 + FirstPresentIndex(names[1..], jar)
  }

  /** The cookie under the first candidate name that the store holds. */
  function FirstPresent(names: seq<string>, jar: CookieJar): (r: Option<Cookie>)
    ensures r.None? <==> forall j | 0 <= j < |names| :: names[j] !in jar
    ensures r.Some? ==> r.value.name in names && r.value.name in jar && r.value.value == jar[r.value.name]
    ensures r.Some? ==> exists k | 0 <= k < |names| :: names[k] == r.value.name && forall j | 0 <= j < k :: names[j] !in jar
  {
    var k := FirstPresentIndex(names, jar);
    if k < |names| then Some(Cookie(names[k], jar[names[k]])) else None
  }

  /** The literal two-step lookup is the ordered search over the two candidate names. */
  lemma FindSessionCookieIsFirstPresent(jar: CookieJar)
    ensures FindSessionCookie(jar) == FirstPresent(CandidateNames, jar)
  {
  }

  // ---------------------------------------------------------------------------
  // Reading the header back, as a receiver splits a cookie-pair at its first `=`.

  /** The position of the first `c` in `s`, or `|s|` when there is none. */
  function IndexOf(s: string, c: char): (k: nat)
    ensures k <= |s|
    ensures forall j | 0 <= j < k :: s[j] != c
    ensures k < |s| ==> s[k] == c
    decreases |s|
  {
    if s == [] then 0
    else if s[0] == c then 0
    else 1 + IndexOf(s[1..], c)
  }

  /** Splits a cookie-pair into name and value at the first `=`; none when there is no `=`. */
  function ParseCookiePair(h: string): (r: Option<Cookie>)
    ensures r.None? <==> '=' !in h
    ensures r.Some? ==> h == CookiePair(r.value) && '=' !in r.value.name
  {
    var k := IndexOf(h, '=');
    if k < |h| then Some(Cookie(h[..k], h[k + 1..])) else None
  }

  /** A cookie-pair whose name holds no `=` reads back as the same cookie. */
  lemma CookiePairRoundTrip(c: Cookie)
    requires '=' !in c.name
    ensures ParseCookiePair(CookiePair(c)) == Some(c)
  {
  }

  /** Neither candidate name contains `=`. */
  lemma CandidateNamesHaveNoEquals()
    ensures forall name | name in CandidateNames :: '=' !in name
  {
  }

  /** The header reads back as exactly the cookie the locator found, and the empty header as none. */
  lemma SessionCookieHeaderRoundTrip(jar: CookieJar)
    ensures ParseCookiePair(SessionCookieHeader(jar)) == FindSessionCookie(jar)
  {
    var c := FindSessionCookie(jar);
    if c.Some? {
      CandidateNamesHaveNoEquals();
      CookiePairRoundTrip(c.value);
    }
  }
}
