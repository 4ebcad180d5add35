# ajdev-compute: the request handler, modelled in Dafny

The site is served by one Go handler on an edge platform (`main.go`). For each
request it:

- refuses write methods with a 405;
- serves the favicon or a file from the embedded `content/static` tree;
- or renders one of four page templates, falling back to a 404 page;
- sets the cache lifetime (a week for a hit, a day for a miss) and the content type;
- gzips the body when the client lists `gzip`, and only for a GET.

Before rendering a page it builds the template's view-model:

- it marks which entry of the process-wide navigation list is the current page, in place;
- it reads the dark-mode cookie, adding a `light` one to the request when it is missing.

The model has nine modules:

- `Text`: `strings.TrimPrefix`, `filepath.Ext` on `/`-separated paths, and the decimal rendering behind `%d`.
- `Site`: the constants and tables (cache lifetimes, cookie name, MIME table with its fallback, page table), the `Cache-Control` value and the MIME lookup.
- `Http`: the request as the handler sees it. It is a class whose cookie list `AddCookie` extends. The static tree is a map from file name to bytes.
- `Compression`: `canCompress`, a loop with early return.
- `Navigation`: the shared links as objects whose `active` field a loop rewrites.
- `Templates`: `getTmplData` and the dark-mode rule.
- `Routing`: the decision as values.
  - `Classify` gives a request's outcome: 405, favicon hit or miss, static hit or miss, page hit or page not found.
  - `Respond` gives the exact sequence of calls the handler makes on its response writer (`SetHeader`, `WriteHeader`, body writes, process exit). It is built from the outcome's status and header calls (`Head`) followed by its body calls (`Tail`).
  - `FaviconCalls`, `StaticCalls` and `PageCalls` list the calls of each case of the handler's switch as the code writes them. A lemma per case proves that they agree with `Respond`.
  - Observation functions read off what the calls leave on the writer: `HeaderValue` (the last value set on the header map for a key, whether or not a status was already written), `StatusCodes`, `BodyWrites`, and `SetAfterStatus` (a header set after the status was already written). The lemmas state each observation per outcome.
  - `Sent` is the run of header calls made before the first status or body write. On a writer that sends its headers along with the status, as Go's `net/http` does, these are the only headers that reach the client (see "## Findings").
- `Handler`: the handler itself, step by step. A `ResponseWriter` class records every call, and `Serve` is proved to make exactly the calls `Respond` lists. It marks the links and defaults the cookie exactly when the request reaches the page branch (any method that is not refused, HEAD and OPTIONS included), whether or not a template is executed, and changes neither otherwise.

Where the code and a plain reading of the site's behaviour differ, the model follows the code:

- The default dark-mode cookie is added to the request (`r.AddCookie`), not set on the response.
- The static branch is taken on the prefix `/static`, but the lookup key trims `/static/`. So `/static` and `/staticfoo` keep their leading `/`, name no file, and are static misses (`Routing.SlashlessStaticPathMisses`).
- Dark mode follows the first cookie with the dark-mode name, as `r.Cookie` returns the first match.
- The fallback MIME type is spelled `application/octect-stream`, as in the code.
- The handler sets some headers after `WriteHeader` has been called. The trace keeps them in the order they were made, and `Routing.HeadersAfterStatus` says exactly where this happens.

## Model

| member | source | states |
|---|---|---|
| Text.TrimPrefix | main.go:173 | the result with the prefix put back is the input when the input starts with it; otherwise the input is returned unchanged |
| Text.Decimal | main.go:155 | definition of the `%d` rendering; its properties are in `Text.DecimalDigits` |
| Text.Ext | main.go:177 | the result is the suffix from the last `.` of the final path segment, or empty when that segment has no `.` |
| Text.DecimalDigits | main.go:155 | the `%d` rendering of a non-negative number is all digits, reads back as that number, and has no leading zero |
| Site.ContentTypeFallback | main.go:177-182 | the fallback type is sent exactly when the path's extension is not in the MIME table; otherwise the table's type is sent |
| Site.ContentTypeFor | main.go:177-182 | definition: the MIME table's entry for the path's extension, or the fallback; its properties are in `Site.ContentTypeFallback`, `Site.StyleSheetType` and `Site.NoExtensionType` |
| Site.CacheControl | main.go:155 | definition of the `Cache-Control` value; its values are in `Site.CacheControlWeek` and `Site.CacheControlDay` |
| Site.CacheControlWeek | main.go:65 | the hit lifetime is 604800 seconds and its header value is `public, max-age=604800` |
| Site.CacheControlDay | main.go:66 | the miss lifetime is 86400 seconds and its header value is `public, max-age=86400` |
| Site.StyleSheetType | main.go:43-49 | `/static/style.css` is sent as `text/css` |
| Site.NoExtensionType | main.go:177-182 | a final segment without `.` gets the fallback type even when an earlier directory name has a `.` |
| Http.FindCookie | main.go:88 | the lookup finds nothing exactly when no cookie has the name; otherwise it finds the first cookie with it |
| Http.FindCookieAppend | main.go:97 | adding cookies after a match never changes which cookie is found |
| Http.Request.AddCookie | main.go:97 | the request's cookies are the old ones followed by the new one |
| Compression.CanCompress | main.go:132-139 | the result is true exactly when some `Accept-Encoding` value equals `gzip` |
| Compression.AcceptsGzip | main.go:133-134 | definition: some header value is exactly `gzip`; `Compression.CanCompress` is proved against it |
| Compression.WholeValuesOnly | main.go:133-134 | combined or parameterised header values (`gzip, deflate, br`, `gzip;q=1.0`) do not count as `gzip`; a separate `gzip` value does |
| Navigation.Marked | main.go:84-86 | each link keeps its name, path and place, and is active exactly when its path is the request path |
| Navigation.MarkedForgetsOldFlags | main.go:84-86 | the flags left by an earlier request play no part in the marking |
| Navigation.MarkedIdempotent | main.go:84-86 | marking twice for the same path is marking once |
| Navigation.ActiveLink | main.go:84-86 | with distinct link paths, a request for a listed path leaves exactly that link active, and any other request leaves none |
| Navigation.MarkActive | main.go:84-86 | the loop leaves the shared links as `Marked` describes, changing only their `active` fields |
| Templates.DarkMode | main.go:88-102 | dark mode is on exactly when the first cookie with the dark-mode name has the value `dark` |
| Templates.WithDefaultCookie | main.go:88-98 | definition of the cookies after `getTmplData`; its properties are in `Templates.DefaultCookieSettles` and `Templates.DarkModeVisits` |
| Templates.DefaultCookieSettles | main.go:88-98 | after the default is added the cookie is present, the mode it gives is unchanged, and a second request adds nothing |
| Templates.DarkModeVisits | main.go:88-102 | a first visit gets a `light` cookie and light mode; a visit carrying `dark` gets dark mode and no new cookie |
| Templates.GetTmplData | main.go:83-105 | the links are marked, a `light` cookie is added to the request only when none is present, and the view-model carries the arriving mode, the cookie name and the shared list itself |
| Routing.Classify | main.go:144-201 | write methods are refused before any path test; `/favicon.ico` matches exactly and before the static branch; `/static…` is static with the `/static/` trimmed key, a hit exactly when the file exists; everything else is a page, a hit exactly when it is in the page table |
| Routing.MaxAge | main.go:64-66 | the lifetime is a week exactly for a hit, and a day for every miss |
| Routing.Send | main.go:159-168 | definition of a body send; its observations are in `Routing.SendObservations` |
| Routing.Render | main.go:205-221 | definition of a template execution; its observations are in `Routing.RenderObservations` |
| Routing.Respond | main.go:142-244 | definition of every call the handler makes, outcome by outcome; the `Routing.*ByOutcome` lemmas state what it sets and writes, and `Handler.Serve` is proved to make exactly these calls |
| Routing.FaviconCalls | main.go:151-170 | definition of the favicon case as the code writes it; `Routing.RespondFavicon` ties it to `Respond` |
| Routing.StaticCalls | main.go:171-196 | definition of the static case as the code writes it; `Routing.RespondStatic` ties it to `Respond` |
| Routing.PageCalls | main.go:197-242 | definition of the default case as the code writes it; `Routing.RespondPage` ties it to `Respond` |
| Routing.RespondFavicon | main.go:151-170 | the favicon case makes exactly the calls of its outcome |
| Routing.RespondStatic | main.go:171-196 | the static case makes exactly the calls of its outcome |
| Routing.RespondPage | main.go:197-242 | the page case makes exactly the calls of its outcome |
| Routing.HeadHeaders | main.go:151-223 | the headers each branch sets before its body: `Cache-Control` on every branch but the 405, and the icon, extension or HTML content type |
| Routing.SendObservations | main.go:159-169 | a body is written only for a GET, compressed and with `Content-Encoding: gzip` set exactly when the client accepts it, and it sets no status |
| Routing.RenderObservations | main.go:205-221 | a template failure on a GET writes 500 and then ends the process as the very last call |
| Routing.TailObservations | main.go:159-241 | the body of each outcome: its content once for a GET, gzip set exactly when compressed, a 500 and exit only for a failing page |
| Routing.MethodNotAllowed | main.go:144-148 | a write method gets exactly a 405 and the fixed message on any path; no other request gets a 405 |
| Routing.StatusByOutcome | main.go:144-238 | 405 for a write method, 404 for every miss, then 500 for a failing page; no status (an implicit 200) for a hit |
| Routing.CacheControlByOutcome | main.go:151-223 | every branch but the 405 sets `Cache-Control` to `public, max-age=604800` for a hit and `public, max-age=86400` for a miss (the last value set, not necessarily sent with the status) |
| Routing.ContentTypeByOutcome | main.go:151-200 | `image/x-icon` for the favicon, the extension's type for a static file, `text/html` for every page, none for a favicon or static miss or the 405 |
| Routing.BodyByOutcome | main.go:144-241 | the 405 message for a write method; for a GET of anything with content, that content once, compressed exactly when gzip is accepted; nothing otherwise (HEAD and OPTIONS get no body) |
| Routing.GzipByOutcome | main.go:159-227 | `Content-Encoding: gzip` is set on the header map exactly for a GET of something with content when the client accepts gzip |
| Routing.GzipMatchesBody | main.go:160-168 | `Content-Encoding` is set on the header map exactly when a compressed body is written |
| Routing.HeadersAfterStatus | main.go:151-207 | a header is set after the status only for the favicon miss's `Cache-Control` and a compressed 404 page's `Content-Encoding` |
| Routing.RenderErrorExits | main.go:211-238 | the process ends exactly when a page's template fails on a GET, and then right after a 500 |
| Routing.SlashlessStaticPathMisses | main.go:171-173 | a path starting with `/static` but not `/static/` is always a static miss, never a page |
| Routing.RegisteredPages | main.go:53-58 | every path in the page table reaches its page and is not taken by the favicon or static branch |
| Routing.StyleSheetRequests | main.go:171-184 | a request for `/static/style.css` with the file present is a static hit sent as `text/css` and cached for a week |
| Routing.Sent | main.go:154-155 | the header calls made before the first status or body write: the longest run of `SetHeader` calls at the front of the trace |
| Routing.CompressedNotFoundUnannounced | main.go:204-207 | a GET of an unregistered path from a gzip client: no `Content-Encoding` is set before the 404 is written, yet a compressed body is written |
| Routing.FaviconMissUncached | main.go:154-155 | a favicon miss sets no header before its 404, although it sets `Cache-Control` afterwards |
| Routing.CorrectedRespondHeaders | main.go:151-242 | with every header set before the status, each answer but the 405 sends its `Cache-Control` with the status, `Content-Encoding: gzip` is sent exactly for a compressed body, and the calls are the handler's own, only reordered |
| Routing.CorrectedReorders | main.go:151-242 | the corrected calls differ from the handler's only for the favicon miss and the 404 page, and are always a reordering of the same calls |
| Handler.ResponseWriter.SetHeader | main.go:157 | a header call is recorded after the earlier calls |
| Handler.ResponseWriter.WriteHeader | main.go:145 | a status call is recorded after the earlier calls |
| Handler.ResponseWriter.Write | main.go:165-167 | a body write, compressed or not, is recorded after the earlier calls |
| Handler.ResponseWriter.Fatal | main.go:213 | the end of the process is recorded after the earlier calls |
| Handler.SendBody | main.go:159-169 | the handler's body writes are those `Send` describes for the request's method and `Accept-Encoding` |
| Handler.RenderBody | main.go:205-221 | the handler's template execution writes what `Render` describes, including the 500 and exit on failure |
| Handler.ServeFavicon | main.go:151-170 | the favicon branch makes the calls `FaviconCalls` lists |
| Handler.ServeStatic | main.go:171-196 | the static branch makes the calls `StaticCalls` lists |
| Handler.WritePage | main.go:200-242 | the page branch, after the view-model is built, makes the calls `PageCalls` lists |
| Handler.Route | main.go:150-243 | the switch makes exactly the calls `Respond` gives; only the page branch marks the links and defaults the cookie |
| Handler.Serve | main.go:142-244 | the handler makes exactly the calls `Respond` gives for the request, rendered with the mode the request arrived with; links and cookies change exactly when the request reaches the page branch (HEAD and OPTIONS included, with no template executed), as `Marked` and the default-cookie rule say |

## Findings

On a writer that sends its headers when the status is written (Go's `net/http` does; the edge platform's writer is not part of this model), two branches set a header too late:

| source | as written | input that shows it | evidently intended | confidence | as-written member | corrected member |
|---|---|---|---|---|---|---|
| main.go:204-207 | the 404 page writes its 404 and only then sets `Content-Encoding: gzip` before writing a compressed body | `GET /nope` with `Accept-Encoding: gzip` | set `Content-Encoding` before `WriteHeader(404)`, so a compressed body is always announced | medium, not executed; depends on when the writer sends headers | Routing.CompressedNotFoundUnannounced | Routing.CorrectedRespondHeaders |
| main.go:154-155 | the favicon miss writes its 404 and only then sets `Cache-Control` | `GET /favicon.ico` when the tree has no `favicon.ico` | set `Cache-Control` before the 404, as the static miss does at main.go:174-175 | medium, not executed; depends on when the writer sends headers | Routing.FaviconMissUncached | Routing.CorrectedRespondHeaders |

`Routing.CorrectedRespond` is the handler's answer with each header set before the status. The handler model (`Handler.Serve`) keeps the order the code uses, since it describes the code as written.

## Left out

- The gzip stream itself (`compress/gzip`, and the deferred `Close`): a compressed write is recorded as a write of the same payload marked as compressed.
- Template parsing and execution: a rendered body is the pair (template, view-model). Whether execution succeeds is the parameter `renderOk`.
- The `template.Must` parse of a page template at main.go:225 is assumed to succeed. Its panic is not modelled.
- `log.Fatal` is recorded as an `Exit` call that ends the trace. Logging output is not modelled.
- Startup in `init` (main.go:107-130): the embedded file system, `fs.Sub`, template parsing and the JSON link manifest are foreign I/O. The static tree is a given map from file name to bytes, and the links are a given sequence.
- `fs.ReadFile` is a map lookup, and directories are simply absent from the map. `Http.WellFormedFiles` states some of the names the file system rejects (empty, a leading or trailing `/`, an empty element such as in `a//b`), which are never keys. It does not state the rule against `.` and `..` elements.
- The platform's `ResponseWriter`: the model records calls in order. It does not decide whether headers set after `WriteHeader` reach the client.
- URL parsing and the `Cookie` header syntax: the request carries its path and its already parsed cookie list, and `AddCookie` appends to that list.
- Http.Request.AddCookie: a request with several `Cookie` header lines is not modelled. Go's `AddCookie` rebuilds the header from the first line only and drops the others; nothing in the handler reads the cookies after the default is added.
- The default cookie's `Domain`, `SameSite` and `Expires` (a wall-clock time): a cookie is its name and value only.
- Concurrency on the shared link list: each request is handled alone.
- The unused request context `ctx` and the `fsthttp.ServeFunc` entry point.
- Handler.Serve: a rendered page is stated as the template and view-model passed to it, not as the HTML the template would produce.
