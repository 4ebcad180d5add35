/**
 * The site's fixed configuration (main.go:39-68): cache lifetimes, the
 * dark-mode cookie name, the extension-to-MIME table and the page table.
 */
module Site {
  import opened Text

  /** One week, the `max-age` of every hit. */
  const CacheMaxAge: nat := 60 * 60 * 24 * 7
  /** One day, the `max-age` of a miss. */
  const CacheMaxAge404: nat := 60 * 60 * 24
  const DarkModeCookieKey: string := "aj-dot-dev##dark-mode"

  const MimeTypes: map<string, string> := map[
    ".css"  := "text/css",
    ".ico"  := "image/x-icon",
    ".js"   := "text/javascript",
    ".pdf"  := "application/pdf",
    ".wasm" := "application/wasm"
  ]

  /** The type sent for an extension the table lacks, spelled as the site spells it. */
  const FallbackContentType: string := "application/octect-stream"

  /** Request path to page template file. */
  const Pages: map<string, string> := map[
    "/"          := "content/templates/index.html",
    "/about"     := "content/templates/about.html",
    "/particles" := "content/templates/particles.html",
    "/resume"    := "content/templates/resume.html"
  ]

  /** `fmt.Sprintf("public, max-age=%d", maxAge)`. */
  function CacheControl(maxAge: nat): string
  {
    "public, max-age=" + Decimal(maxAge)
  }

  /** The `Content-Type` of a static file, from the extension of the request path. */
  function ContentTypeFor(path: string): string
  {
    var ext := Ext(path);
    if ext in MimeTypes then MimeTypes[ext] else FallbackContentType
  }

  /** The fallback is chosen exactly when the path's extension is not in the table
      (no table entry maps to the fallback string). */
  lemma ContentTypeFallback(path: string)
    ensures ContentTypeFor(path) == FallbackContentType <==> Ext(path) !in MimeTypes
    ensures Ext(path) in MimeTypes ==> ContentTypeFor(path) == MimeTypes[Ext(path)]
  {
  }

  /** The week-long lifetime as it appears on the wire. */
  lemma CacheControlWeek()
    ensures CacheMaxAge == 604800
    ensures CacheControl(CacheMaxAge) == "public, max-age=604800"
  {
    assert Decimal(60) == Decimal(6) + ['0'];
    assert Decimal(604) == Decimal(60) + ['4'];
    assert Decimal(6048) == Decimal(604) + ['8'];
    assert Decimal(60480) == Decimal(6048) + ['0'];
    assert Decimal(604800) == Decimal(60480) + ['0'];
    assert Decimal(604800) == "604800";
  }

  /** The day-long lifetime of a miss as it appears on the wire. */
  lemma CacheControlDay()
    ensures CacheMaxAge404 == 86400
    ensures CacheControl(CacheMaxAge404) == "public, max-age=86400"
  {
    assert Decimal(86) == Decimal(8) + ['6'];
    assert Decimal(864) == Decimal(86) + ['4'];
    assert Decimal(8640) == Decimal(864) + ['0'];
    assert Decimal(86400) == Decimal(8640) + ['0'];
    assert Decimal(86400) == "86400";
  }

  /** `style.css` is served as a stylesheet. */
  lemma StyleSheetType()
    ensures ContentTypeFor("/static/style.css") == "text/css"
  {
    var css := "/static/style.css";
    assert ExtScan(css, 13) == ".css";
    assert Ext(css) == ExtScan(css, 16) == ExtScan(css, 15) == ExtScan(css, 14) == ".css";
  }

  /** A final segment without `.` gets the fallback type, even when an earlier segment has one. */
  lemma NoExtensionType()
    ensures ContentTypeFor("/static/v1.2/x") == FallbackContentType
  {
    var p := "/static/v1.2/x";
    assert Ext(p) == ExtScan(p, 13) == ExtScan(p, 12) == "";
    assert "" !in MimeTypes;
  }
}
