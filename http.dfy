/**
 * The parts of the edge platform's request that the handler touches: the
 * method, the URL path, the raw `Accept-Encoding` header values and the
 * cookies, plus the read-only tree of static files.
 */
module Http {
  import opened Wrappers

  newtype byte = b: int | 0 <= b < 256

  /** The static file tree, by file name relative to `content/static`. */
  type Files = map<string, seq<byte>>

  /** Every name in the tree is one `io/fs` accepts: not empty, no leading or
      trailing `/`, and no empty element. */
  ghost predicate WellFormedFiles(files: Files)
  {
    forall name :: name in files ==>
      && name != [] && name[0] != '/' && name[|name| - 1] != '/'
      && forall i :: 0 < i < |name| ==> name[i - 1] != '/' || name[i] != '/'
  }

  /** A cookie as the request carries it: name and value. */
  datatype Cookie = Cookie(name: string, value: string)

  /** `r.Cookie(name)`: the first cookie with that name, if any. */
  function FindCookie(cookies: seq<Cookie>, name: string): (c: Option<Cookie>)
    ensures c.None? <==> forall i :: 0 <= i < |cookies| ==> cookies[i].name != name
    ensures c.Some? ==> c.value.name == name && c.value in cookies
    ensures c.Some? ==> exists i :: 0 <= i < |cookies| && cookies[i] == c.value
                          && forall j :: 0 <= j < i ==> cookies[j].name != name
  {
    if cookies == [] then None
    else if cookies[0].name == name then Some(cookies[0])
    else
      var c := FindCookie(cookies[1..], name);
      assert c.Some? ==> exists i :: 0 <= i < |cookies[1..]| && cookies[1..][i] == c.value
                           && forall j :: 0 <= j < i ==> cookies[1..][j].name != name;
      assert c.Some? ==> exists i :: 1 <= i < |cookies| && cookies[i] == c.value
                           && forall j :: 1 <= j < i ==> cookies[j].name != name;
      c
  }

  /** Appending cookies never changes which cookie is found first, once one is found. */
  lemma {:induction false} FindCookieAppend(cookies: seq<Cookie>, extra: seq<Cookie>, name: string)
    ensures FindCookie(cookies + extra, name) ==
              if FindCookie(cookies, name).Some? then FindCookie(cookies, name) else FindCookie(extra, name)
  {
    if cookies != [] {
      assert (cookies + extra)[0] == cookies[0];
      assert (cookies + extra)[1..] == cookies[1..] + extra;
      FindCookieAppend(cookies[1..], extra, name);
    } else {
      assert cookies + extra == extra;
    }
  }

  class Request {
    /** The HTTP method, as sent. */
    const verb: string
    const path: string
    /** `r.Header["Accept-Encoding"]`: one entry per header line, unsplit. */
    const acceptEncoding: seq<string>
    var cookies: seq<Cookie>

    constructor (verb: string, path: string, acceptEncoding: seq<string>, cookies: seq<Cookie>)
      ensures this.verb == verb && this.path == path
      ensures this.acceptEncoding == acceptEncoding && this.cookies == cookies
    {
      this.verb := verb;
      this.path := path;
      this.acceptEncoding := acceptEncoding;
      this.cookies := cookies;
    }

    /** `r.AddCookie(c)`: the cookie joins the request's own `Cookie` header. */
    method AddCookie(c: Cookie)
      modifies this`cookies
      ensures cookies == old(cookies) + [c]
    {
      cookies := cookies + [c];
    }
  }
}
