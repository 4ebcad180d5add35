/**
 * The handler passed to `fsthttp.ServeFunc` (main.go:141-244), step by step:
 * it reads the request, may add a cookie to it and mark the shared navigation
 * links, and makes its calls on the response writer. Each branch is proved to
 * make exactly the calls `Routing.Respond` lists for its case.
 */
module Handler {
  import opened Text
  import opened Site
  import opened Http
  import opened Compression
  import opened Navigation
  import opened Templates
  import R = Routing

  /** The platform's response writer as the handler uses it. Every call is
      recorded in order; so is the end of the process, which `log.Fatal`
      brings about. */
  class ResponseWriter {
    var trace: seq<R.Write>

    constructor ()
      ensures trace == []
    {
      trace := [];
    }

    /** `w.Header().Set(key, value)`. */
    method SetHeader(key: string, value: string)
      modifies this`trace
      ensures trace == old(trace) + [R.SetHeader(key, value)]
    {
      trace := trace + [R.SetHeader(key, value)];
    }

    /** `w.WriteHeader(code)`. */
    method WriteHeader(code: int)
      modifies this`trace
      ensures trace == old(trace) + [R.WriteHeader(code)]
    {
      trace := trace + [R.WriteHeader(code)];
    }

    /** A print to `w`, or to a gzip writer wrapping it. */
    method Write(p: R.Payload, gzipped: bool)
      modifies this`trace
      ensures trace == old(trace) + [R.WriteBody(p, gzipped)]
    {
      trace := trace + [R.WriteBody(p, gzipped)];
    }

    /** `log.Fatal`: nothing is done after it. */
    method Fatal()
      modifies this`trace
      ensures trace == old(trace) + [R.Exit]
    {
      trace := trace + [R.Exit];
    }
  }

  /** The body, for a GET only: through a gzip writer, after setting the
      encoding, when `canCompress` says so; straight to `w` otherwise. */
  method SendBody(w: ResponseWriter, r: Request, p: R.Payload)
    modifies w`trace
    ensures w.trace == old(w.trace) + R.Send(r.verb, AcceptsGzip(r.acceptEncoding), p)
  {
    if r.verb == "GET" {
      var gzip := CanCompress(r);
      if gzip {
        w.SetHeader("Content-Encoding", "gzip");
        w.Write(p, true);
      } else {
        w.Write(p, false);
      }
    }
  }

  /** Executing a template, for a GET only: on an error the status becomes 500
      and the process ends. */
  method RenderBody(w: ResponseWriter, r: Request, t: R.Template, data: TmplData, renderOk: bool)
    modifies w`trace
    ensures w.trace == old(w.trace) + R.Render(r.verb, AcceptsGzip(r.acceptEncoding), t, data, renderOk)
  {
    SendBody(w, r, R.Rendered(t, data));
    if r.verb == "GET" && !renderOk {
      w.WriteHeader(500);
      w.Fatal();
    }
  }

  /** The favicon branch. */
  method ServeFavicon(w: ResponseWriter, r: Request, files: Files)
    modifies w`trace
    ensures w.trace == old(w.trace) + R.FaviconCalls(r.verb, r.acceptEncoding, files)
  {
    if R.FaviconFile !in files {
      w.WriteHeader(404);
      w.SetHeader("Cache-Control", CacheControl(CacheMaxAge404));
    } else {
      w.SetHeader("Content-Type", "image/x-icon");
      w.SetHeader("Cache-Control", CacheControl(CacheMaxAge));
      SendBody(w, r, R.Bytes(files[R.FaviconFile]));
    }
  }

  /** The static branch: the lookup key drops `/static/`, the type comes from
      the extension of the whole path. */
  method ServeStatic(w: ResponseWriter, r: Request, files: Files)
    modifies w`trace
    ensures w.trace == old(w.trace) + R.StaticCalls(r.verb, r.path, r.acceptEncoding, files)
  {
    var key := TrimPrefix(r.path, R.StaticDir);
    if key !in files {
      w.SetHeader("Cache-Control", CacheControl(CacheMaxAge404));
      w.WriteHeader(404);
    } else {
      var contentType := ContentTypeFor(r.path);
      w.SetHeader("Content-Type", contentType);
      w.SetHeader("Cache-Control", CacheControl(CacheMaxAge));
      SendBody(w, r, R.Bytes(files[key]));
    }
  }

  /** The page branch once the view-model is built: the page, or the 404 page
      when the path is not registered. */
  method WritePage(w: ResponseWriter, r: Request, data: TmplData, renderOk: bool)
    modifies w`trace
    ensures w.trace == old(w.trace) + R.PageCalls(r.verb, r.path, r.acceptEncoding, data, renderOk)
  {
    w.SetHeader("Content-Type", "text/html");
    if r.path !in Pages {
      w.SetHeader("Cache-Control", CacheControl(CacheMaxAge404));
      w.WriteHeader(404);
      RenderBody(w, r, R.NotFoundTemplate, data, renderOk);
    } else {
      var pageTmpl := Pages[r.path];
      w.SetHeader("Cache-Control", CacheControl(CacheMaxAge));
      RenderBody(w, r, R.PageTemplate(pageTmpl), data, renderOk);
    }
  }

  /** The handler's switch, for a method that is not refused: the favicon, a
      static file, or a page. Only the page branch builds the view-model, which
      marks the links and defaults the cookie. */
  method Route(w: ResponseWriter, r: Request, links: seq<NavLink>, files: Files, renderOk: bool)
    requires r.verb !in R.DisallowedMethods
    modifies w`trace, r`cookies, links`active
    ensures w.trace == old(w.trace) +
              R.Respond(r.verb, r.path, r.acceptEncoding, files,
                        TmplData(DarkMode(old(r.cookies)), DarkModeCookieKey, links), renderOk)
    ensures R.PageBranch(r.verb, r.path) ==>
              && Views(links) == Marked(old(Views(links)), r.path)
              && r.cookies == WithDefaultCookie(old(r.cookies))
    ensures !R.PageBranch(r.verb, r.path) ==>
              Views(links) == old(Views(links)) && r.cookies == old(r.cookies)
  {
    ghost var data := TmplData(DarkMode(r.cookies), DarkModeCookieKey, links);
    if r.path == R.FaviconPath {
      R.RespondFavicon(r.verb, r.path, r.acceptEncoding, files, data, renderOk);
      ServeFavicon(w, r, files);
    } else if R.StaticPrefix <= r.path {
      R.RespondStatic(r.verb, r.path, r.acceptEncoding, files, data, renderOk);
      ServeStatic(w, r, files);
    } else {
      var tmplData := GetTmplData(links, r);
      R.RespondPage(r.verb, r.path, r.acceptEncoding, files, tmplData, renderOk);
      WritePage(w, r, tmplData, renderOk);
    }
  }

  /** The handler: write methods are refused with a 405 and a fixed message,
      everything else is routed. The links are marked and the cookie defaulted
      exactly when the request reaches the page branch (any method that is not
      refused, HEAD and OPTIONS included), whether or not a template is executed. */
  method Serve(w: ResponseWriter, r: Request, links: seq<NavLink>, files: Files, renderOk: bool)
    modifies w`trace, r`cookies, links`active
    ensures w.trace == old(w.trace) +
              R.Respond(r.verb, r.path, r.acceptEncoding, files,
                        TmplData(DarkMode(old(r.cookies)), DarkModeCookieKey, links), renderOk)
    ensures R.PageBranch(r.verb, r.path) ==>
              && Views(links) == Marked(old(Views(links)), r.path)
              && r.cookies == WithDefaultCookie(old(r.cookies))
    ensures !R.PageBranch(r.verb, r.path) ==>
              Views(links) == old(Views(links)) && r.cookies == old(r.cookies)
  {
    if r.verb == "POST" || r.verb == "PUT" || r.verb == "PATCH" || r.verb == "DELETE" {
      assert R.Classify(r.verb, r.path, files) == R.NotAllowed;
      w.WriteHeader(405);
      w.Write(R.Message(R.NotAllowedBody), false);
      return;
    }
    Route(w, r, links, files, renderOk);
  }
}
