/**
 * `getTmplData` (main.go:83-105): the per-request view-model handed to the
 * page templates, built by marking the shared navigation list and resolving
 * the dark-mode cookie.
 */
module Templates {
  import opened Wrappers
  import opened Http
  import opened Site
  import opened Navigation

  /** `tmplData`; `navLinks` is the shared list itself, not a copy. */
  datatype TmplData = TmplData(darkMode: bool, darkModeCookieKey: string, navLinks: seq<NavLink>)

  /** Dark mode is on exactly when the first cookie named `DarkModeCookieKey`
      holds `dark`. */
  function DarkMode(cookies: seq<Cookie>): (dark: bool)
    ensures dark <==> exists i :: 0 <= i < |cookies| && cookies[i] == Cookie(DarkModeCookieKey, "dark")
                                   && forall j :: 0 <= j < i ==> cookies[j].name != DarkModeCookieKey
  {
    match FindCookie(cookies, DarkModeCookieKey)
    case Some(c) => c.value == "dark"
    case None => false
  }

  /** The request's cookies after resolution: a `light` cookie is added when
      none with the key is present. */
  function WithDefaultCookie(cookies: seq<Cookie>): seq<Cookie>
  {
    if FindCookie(cookies, DarkModeCookieKey).None? then cookies + [Cookie(DarkModeCookieKey, "light")]
    else cookies
  }

  /** After resolution the cookie is present, the mode it gives is unchanged,
      and resolving again adds nothing. */
  lemma DefaultCookieSettles(cookies: seq<Cookie>)
    ensures FindCookie(WithDefaultCookie(cookies), DarkModeCookieKey).Some?
    ensures DarkMode(WithDefaultCookie(cookies)) == DarkMode(cookies)
    ensures WithDefaultCookie(WithDefaultCookie(cookies)) == WithDefaultCookie(cookies)
  {
    FindCookieAppend(cookies, [Cookie(DarkModeCookieKey, "light")], DarkModeCookieKey);
  }

  /** A first visit gets a `light` cookie and light mode; a visit carrying
      `dark` gets dark mode and no new cookie. */
  lemma DarkModeVisits(other: seq<Cookie>)
    requires forall i :: 0 <= i < |other| ==> other[i].name != DarkModeCookieKey
    ensures WithDefaultCookie(other) == other + [Cookie(DarkModeCookieKey, "light")]
    ensures !DarkMode(other)
    ensures var dark := [Cookie(DarkModeCookieKey, "dark")] + other;
            DarkMode(dark) && WithDefaultCookie(dark) == dark
  {
    var dark := [Cookie(DarkModeCookieKey, "dark")] + other;
    assert dark[0] == Cookie(DarkModeCookieKey, "dark");
  }

  /** `getTmplData`: marks every shared link, adds the default cookie to the
      request when it is missing, and reports the mode the request arrived with. */
  method GetTmplData(links: seq<NavLink>, r: Request) returns (data: TmplData)
    modifies links`active, r`cookies
    ensures Views(links) == Marked(old(Views(links)), r.path)
    ensures r.cookies == WithDefaultCookie(old(r.cookies))
    ensures data == TmplData(DarkMode(old(r.cookies)), DarkModeCookieKey, links)
  {
    MarkActive(links, r.path);

    var dmCookie := FindCookie(r.cookies, DarkModeCookieKey);
    if dmCookie.None? {
      var c := Cookie(DarkModeCookieKey, "light");
      r.AddCookie(c);
      dmCookie := Some(c);
    }
    data := TmplData(dmCookie.value.value == "dark", DarkModeCookieKey, links);
  }
}
