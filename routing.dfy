/**
 * The request handler's decision (main.go:142-244): which of the five
 * outcomes a request gets, and the exact sequence of calls the handler makes
 * on its `ResponseWriter` for it.
 */
module Routing {
  import opened Wrappers
  import opened Text
  import opened Site
  import opened Http
  import opened Compression
  import opened Navigation
  import opened Templates

  const DisallowedMethods: set<string> := {"POST", "PUT", "PATCH", "DELETE"}
  const FaviconPath: string := "/favicon.ico"
  const FaviconFile: string := "favicon.ico"
  /** The static branch is taken on this prefix ... */
  const StaticPrefix: string := "/static"
  /** ... but the lookup key trims this longer one. */
  const StaticDir: string := "/static/"
  const NotAllowedBody: string := "This method is not allowed\n"

  /** The template a page response executes. */
  datatype Template = PageTemplate(file: string) | NotFoundTemplate

  /** What is written to the body: file bytes, a fixed message, or a template
      executed on the request's view-model (the rendering itself is not modelled). */
  datatype Payload =
    | Bytes(content: seq<byte>)
    | Message(text: string)
    | Rendered(template: Template, data: TmplData)

  /** One call the handler makes while answering a request. */
  datatype Write =
    | SetHeader(key: string, value: string)       // w.Header().Set
    | WriteHeader(code: int)                      // w.WriteHeader
    | WriteBody(payload: Payload, gzipped: bool)  // to w, or through a gzip writer on w
    | Exit                                        // log.Fatal: the process ends

  datatype Outcome =
    | NotAllowed
    | FaviconHit
    | FaviconMiss
    | StaticHit(key: string)
    | StaticMiss(key: string)
    | PageHit(file: string)
    | PageNotFound

  /** The outcome of a request. Write methods are refused before any path test;
      the favicon is an exact match; every path starting with `/static` (also
      `/staticX`) is static and looks up the path minus `/static/`; every other
      path is a page, found or not in the page table. */
  function Classify(verb: string, path: string, files: Files): (o: Outcome)
    ensures o == NotAllowed <==> verb in DisallowedMethods
    ensures o == FaviconHit <==> verb !in DisallowedMethods && path == FaviconPath && FaviconFile in files
    ensures o == FaviconMiss <==> verb !in DisallowedMethods && path == FaviconPath && FaviconFile !in files
    ensures (o.StaticHit? || o.StaticMiss?) <==>
              verb !in DisallowedMethods && path != FaviconPath && StaticPrefix <= path
    ensures o.StaticHit? || o.StaticMiss? ==>
              o.key == TrimPrefix(path, StaticDir) && (o.StaticHit? <==> o.key in files)
    ensures o.PageHit? <==> verb !in DisallowedMethods && !(StaticPrefix <= path) && path in Pages
    ensures o.PageHit? ==> o.file == Pages[path]
    ensures o == PageNotFound <==>
              verb !in DisallowedMethods && path != FaviconPath && !(StaticPrefix <= path) && path !in Pages
    ensures RendersPage(o) <==> PageBranch(verb, path)
  {
    if verb in DisallowedMethods then NotAllowed
    else if path == FaviconPath then
      if FaviconFile in files then FaviconHit else FaviconMiss
    else if StaticPrefix <= path then
      var key := TrimPrefix(path, StaticDir);
      if key in files then StaticHit(key) else StaticMiss(key)
    else if path in Pages then PageHit(Pages[path])
    else PageNotFound
  }

  predicate IsHit(o: Outcome)
  {
    o.FaviconHit? || o.StaticHit? || o.PageHit?
  }

  /** The cache lifetime of an outcome: a week for a hit, a day for a miss. */
  function MaxAge(o: Outcome): (age: nat)
    ensures age == CacheMaxAge <==> IsHit(o)
    ensures !IsHit(o) ==> age == CacheMaxAge404
  {
    if IsHit(o) then CacheMaxAge else CacheMaxAge404
  }

  predicate RendersPage(o: Outcome)
  {
    o.PageHit? || o.PageNotFound?
  }

  /** The requests that reach the `default` case of the handler's switch. */
  predicate PageBranch(verb: string, path: string)
  {
    verb !in DisallowedMethods && path != FaviconPath && !(StaticPrefix <= path)
  }

  /** The body writes of a GET: through a gzip writer, after setting its header,
      when the client accepts gzip; nothing at all for any other method. */
  function Send(verb: string, gzip: bool, p: Payload): seq<Write>
  {
    if verb != "GET" then []
    else if gzip then [SetHeader("Content-Encoding", "gzip"), WriteBody(p, true)]
    else [WriteBody(p, false)]
  }

  /** Executing a template for a GET; an execution error sets 500 and ends the process. */
  function Render(verb: string, gzip: bool, t: Template, data: TmplData, renderOk: bool): seq<Write>
  {
    Send(verb, gzip, Rendered(t, data)) + if verb == "GET" && !renderOk then [WriteHeader(500), Exit] else []
  }

  /** The status and header calls of each branch, made before anything is written
      to the body. `contentType` is the type looked up for a static file and
      `cacheControl` the value the branch formats from its cache lifetime. */
  function Head(o: Outcome, contentType: string, cacheControl: string): seq<Write>
  {
    match o
    case NotAllowed =>
      [WriteHeader(405)]
    case FaviconMiss =>
      [WriteHeader(404), SetHeader("Cache-Control", cacheControl)]
    case FaviconHit =>
      [SetHeader("Content-Type", "image/x-icon"), SetHeader("Cache-Control", cacheControl)]
    case StaticMiss(_) =>
      [SetHeader("Cache-Control", cacheControl), WriteHeader(404)]
    case StaticHit(_) =>
      [SetHeader("Content-Type", contentType), SetHeader("Cache-Control", cacheControl)]
    case PageNotFound =>
      [SetHeader("Content-Type", "text/html"), SetHeader("Cache-Control", cacheControl), WriteHeader(404)]
    case PageHit(_) =>
      [SetHeader("Content-Type", "text/html"), SetHeader("Cache-Control", cacheControl)]
  }

  /** The body calls of each branch. */
  function Tail(o: Outcome, verb: string, gzip: bool, files: Files, data: TmplData,
                renderOk: bool): seq<Write>
    requires o.FaviconHit? ==> FaviconFile in files
    requires o.StaticHit? ==> o.key in files
  {
    match o
    case NotAllowed => [WriteBody(Message(NotAllowedBody), false)]
    case FaviconMiss => []
    case FaviconHit => Send(verb, gzip, Bytes(files[FaviconFile]))
    case StaticMiss(_) => []
    case StaticHit(key) => Send(verb, gzip, Bytes(files[key]))
    case PageNotFound => Render(verb, gzip, NotFoundTemplate, data, renderOk)
    case PageHit(file) => Render(verb, gzip, PageTemplate(file), data, renderOk)
  }

  /** The favicon case of the handler's switch. */
  function FaviconCalls(verb: string, acceptEncoding: seq<string>, files: Files): seq<Write>
  {
    if FaviconFile !in files then
      [WriteHeader(404), SetHeader("Cache-Control", CacheControl(CacheMaxAge404))]
    else
      [SetHeader("Content-Type", "image/x-icon"), SetHeader("Cache-Control", CacheControl(CacheMaxAge))] +
      Send(verb, AcceptsGzip(acceptEncoding), Bytes(files[FaviconFile]))
  }

  /** The static case of the handler's switch. */
  function StaticCalls(verb: string, path: string, acceptEncoding: seq<string>, files: Files): seq<Write>
  {
    var key := TrimPrefix(path, StaticDir);
    if key !in files then
      [SetHeader("Cache-Control", CacheControl(CacheMaxAge404)), WriteHeader(404)]
    else
      [SetHeader("Content-Type", ContentTypeFor(path)),
       SetHeader("Cache-Control", CacheControl(CacheMaxAge))] +
      Send(verb, AcceptsGzip(acceptEncoding), Bytes(files[key]))
  }

  /** The default case of the handler's switch, after the view-model is built. */
  function PageCalls(verb: string, path: string, acceptEncoding: seq<string>, data: TmplData,
                     renderOk: bool): seq<Write>
  {
    [SetHeader("Content-Type", "text/html")] +
    if path !in Pages then
      [SetHeader("Cache-Control", CacheControl(CacheMaxAge404)), WriteHeader(404)] +
      Render(verb, AcceptsGzip(acceptEncoding), NotFoundTemplate, data, renderOk)
    else
      [SetHeader("Cache-Control", CacheControl(CacheMaxAge))] +
      Render(verb, AcceptsGzip(acceptEncoding), PageTemplate(Pages[path]), data, renderOk)
  }

  /** Every call the handler makes on its writer, in order: the status and
      header calls of the outcome, then its body calls. `data` is the view-model
      a page is rendered with and `renderOk` whether the template engine
      executes without error. */
  function Respond(verb: string, path: string, acceptEncoding: seq<string>, files: Files, data: TmplData,
                   renderOk: bool): seq<Write>
  {
    var o := Classify(verb, path, files);
    Head(o, ContentTypeFor(path), CacheControl(MaxAge(o))) +
    Tail(o, verb, AcceptsGzip(acceptEncoding), files, data, renderOk)
  }

  /** The favicon case of the switch makes exactly the calls of its outcome. */
  lemma RespondFavicon(verb: string, path: string, acceptEncoding: seq<string>, files: Files, data: TmplData,
                       renderOk: bool)
    requires verb !in DisallowedMethods && path == FaviconPath
    ensures Respond(verb, path, acceptEncoding, files, data, renderOk) ==
            FaviconCalls(verb, acceptEncoding, files)
  {
  }

  /** The static case of the switch makes exactly the calls of its outcome. */
  lemma RespondStatic(verb: string, path: string, acceptEncoding: seq<string>, files: Files, data: TmplData,
                      renderOk: bool)
    requires verb !in DisallowedMethods && path != FaviconPath && StaticPrefix <= path
    ensures Respond(verb, path, acceptEncoding, files, data, renderOk) ==
            StaticCalls(verb, path, acceptEncoding, files)
  {
  }

  /** The default case of the switch makes exactly the calls of its outcome. */
  lemma RespondPage(verb: string, path: string, acceptEncoding: seq<string>, files: Files, data: TmplData,
                    renderOk: bool)
    requires PageBranch(verb, path)
    ensures Respond(verb, path, acceptEncoding, files, data, renderOk) ==
            PageCalls(verb, path, acceptEncoding, data, renderOk)
  {
  }

  // ---- Observations of a trace: what the calls leave on the writer.

  /** The last value set on the header map for a key, whether or not a status
      was already written by then. */
  function HeaderValue(t: seq<Write>, key: string): Option<string>
    decreases |t|
  {
    if t == [] then None
    else if t[|t| - 1].SetHeader? && t[|t| - 1].key == key then Some(t[|t| - 1].value)
    else HeaderValue(t[..|t| - 1], key)
  }

  /** The status codes passed to `WriteHeader`, in order. */
  function StatusCodes(t: seq<Write>): seq<int>
  {
    if t == [] then [] else (if t[0].WriteHeader? then [t[0].code] else []) + StatusCodes(t[1..])
  }

  /** The writes to the body, in order. */
  function BodyWrites(t: seq<Write>): seq<Write>
  {
    if t == [] then [] else (if t[0].WriteBody? then [t[0]] else []) + BodyWrites(t[1..])
  }

  /** Whether header `key` is set after some status has already been written. */
  predicate SetAfterStatus(t: seq<Write>, key: string)
  {
    if t == [] then false
    else if t[0].WriteHeader? then HeaderValue(t[1..], key).Some?
    else SetAfterStatus(t[1..], key)
  }

  /** The header calls made before the first status or body write: on a writer
      that sends its headers along with the status, the only ones that reach the
      client. */
  function Sent(t: seq<Write>): (s: seq<Write>)
    ensures |s| <= |t| && s == t[..|s|]
    ensures forall i :: 0 <= i < |s| ==> s[i].SetHeader?
    ensures |s| < |t| ==> !t[|s|].SetHeader?
  {
    if t != [] && t[0].SetHeader? then [t[0]] + Sent(t[1..]) else []
  }

  /** `Sent` is the longest run of header calls at the front. */
  lemma SentIs(t: seq<Write>, n: nat)
    requires n <= |t|
    requires forall i :: 0 <= i < n ==> t[i].SetHeader?
    requires n < |t| ==> !t[n].SetHeader?
    ensures Sent(t) == t[..n]
  {
  }

  lemma {:induction false} HeaderValueAppend(a: seq<Write>, b: seq<Write>, key: string)
    ensures HeaderValue(a + b, key) ==
              if HeaderValue(b, key).Some? then HeaderValue(b, key) else HeaderValue(a, key)
    decreases |b|
  {
    if b != [] {
      assert (a + b)[..|a + b| - 1] == a + b[..|b| - 1];
      HeaderValueAppend(a, b[..|b| - 1], key);
    } else {
      assert a + b == a;
    }
  }

  lemma {:induction false} StatusCodesAppend(a: seq<Write>, b: seq<Write>)
    ensures StatusCodes(a + b) == StatusCodes(a) + StatusCodes(b)
  {
    if a == [] {
      assert a + b == b;
    } else {
      var first := if a[0].WriteHeader? then [a[0].code] else [];
      assert (a + b)[0] == a[0] && (a + b)[1..] == a[1..] + b;
      StatusCodesAppend(a[1..], b);
      assert first + (StatusCodes(a[1..]) + StatusCodes(b)) == (first + StatusCodes(a[1..])) + StatusCodes(b);
    }
  }

  lemma {:induction false} BodyWritesAppend(a: seq<Write>, b: seq<Write>)
    ensures BodyWrites(a + b) == BodyWrites(a) + BodyWrites(b)
  {
    if a == [] {
      assert a + b == b;
    } else {
      var first := if a[0].WriteBody? then [a[0]] else [];
      assert (a + b)[0] == a[0] && (a + b)[1..] == a[1..] + b;
      BodyWritesAppend(a[1..], b);
      assert first + (BodyWrites(a[1..]) + BodyWrites(b)) == (first + BodyWrites(a[1..])) + BodyWrites(b);
    }
  }

  lemma {:induction false} SetAfterStatusAppend(a: seq<Write>, b: seq<Write>, key: string)
    ensures SetAfterStatus(a + b, key) <==>
              if StatusCodes(a) == [] then SetAfterStatus(b, key)
              else SetAfterStatus(a, key) || HeaderValue(b, key).Some?
  {
    if a == [] {
      assert a + b == b;
    } else {
      assert (a + b)[1..] == a[1..] + b;
      if a[0].WriteHeader? {
        HeaderValueAppend(a[1..], b, key);
      } else {
        SetAfterStatusAppend(a[1..], b, key);
      }
    }
  }

  /** The four observations of a concatenation, from those of its parts. */
  lemma ObserveAppend(a: seq<Write>, b: seq<Write>, key: string)
    ensures HeaderValue(a + b, key) ==
              if HeaderValue(b, key).Some? then HeaderValue(b, key) else HeaderValue(a, key)
    ensures StatusCodes(a + b) == StatusCodes(a) + StatusCodes(b)
    ensures BodyWrites(a + b) == BodyWrites(a) + BodyWrites(b)
    ensures SetAfterStatus(a + b, key) <==>
              if StatusCodes(a) == [] then SetAfterStatus(b, key)
              else SetAfterStatus(a, key) || HeaderValue(b, key).Some?
  {
    HeaderValueAppend(a, b, key);
    StatusCodesAppend(a, b);
    BodyWritesAppend(a, b);
    SetAfterStatusAppend(a, b, key);
  }

  /** The observations of a single call. */
  lemma SingleObservations(w: Write, key: string)
    ensures HeaderValue([w], key) == if w.SetHeader? && w.key == key then Some(w.value) else None
    ensures StatusCodes([w]) == if w.WriteHeader? then [w.code] else []
    ensures BodyWrites([w]) == if w.WriteBody? then [w] else []
    ensures !SetAfterStatus([w], key)
  {
    assert [w][1..] == [];
    assert [w][..0] == [];
  }

  /** The observations of two calls in a row. */
  lemma PairObservations(w1: Write, w2: Write, key: string)
    ensures HeaderValue([w1, w2], key) ==
              if w2.SetHeader? && w2.key == key then Some(w2.value)
              else if w1.SetHeader? && w1.key == key then Some(w1.value)
              else None
    ensures StatusCodes([w1, w2]) ==
              (if w1.WriteHeader? then [w1.code] else []) + (if w2.WriteHeader? then [w2.code] else [])
    ensures BodyWrites([w1, w2]) ==
              (if w1.WriteBody? then [w1] else []) + (if w2.WriteBody? then [w2] else [])
    ensures SetAfterStatus([w1, w2], key) <==> w1.WriteHeader? && w2.SetHeader? && w2.key == key
  {
    assert [w1, w2] == [w1] + [w2];
    SingleObservations(w1, key);
    SingleObservations(w2, key);
    ObserveAppend([w1], [w2], key);
  }

  /** The headers each branch sets before its body. */
  lemma HeadHeaders(o: Outcome, ct: string, cc: string, key: string)
    ensures HeaderValue(Head(o, ct, cc), key) ==
              if key == "Cache-Control" && o != NotAllowed then Some(cc)
              else if key == "Content-Type" && o == FaviconHit then Some("image/x-icon")
              else if key == "Content-Type" && o.StaticHit? then Some(ct)
              else if key == "Content-Type" && RendersPage(o) then Some("text/html")
              else None
    ensures SetAfterStatus(Head(o, ct, cc), key) <==> o == FaviconMiss && key == "Cache-Control"
  {
    match o
    case NotAllowed =>
      SingleObservations(WriteHeader(405), key);
    case FaviconMiss =>
      PairObservations(WriteHeader(404), SetHeader("Cache-Control", cc), key);
    case FaviconHit =>
      PairObservations(SetHeader("Content-Type", "image/x-icon"), SetHeader("Cache-Control", cc), key);
    case StaticMiss(_) =>
      PairObservations(SetHeader("Cache-Control", cc), WriteHeader(404), key);
    case StaticHit(_) =>
      PairObservations(SetHeader("Content-Type", ct), SetHeader("Cache-Control", cc), key);
    case PageNotFound =>
      var pair := [SetHeader("Content-Type", "text/html"), SetHeader("Cache-Control", cc)];
      assert Head(o, ct, cc) == pair + [WriteHeader(404)];
      PairObservations(pair[0], pair[1], key);
      SingleObservations(WriteHeader(404), key);
      ObserveAppend(pair, [WriteHeader(404)], key);
    case PageHit(_) =>
      PairObservations(SetHeader("Content-Type", "text/html"), SetHeader("Cache-Control", cc), key);
  }

  /** The status each branch writes before its body, and that it writes no body yet. */
  lemma HeadStatus(o: Outcome, ct: string, cc: string)
    ensures StatusCodes(Head(o, ct, cc)) ==
              if o == NotAllowed then [405]
              else if o == FaviconMiss || o.StaticMiss? || o == PageNotFound then [404]
              else []
    ensures BodyWrites(Head(o, ct, cc)) == []
    ensures Exit !in Head(o, ct, cc)
  {
    var key := "";
    match o
    case NotAllowed =>
      SingleObservations(WriteHeader(405), key);
    case FaviconMiss =>
      PairObservations(WriteHeader(404), SetHeader("Cache-Control", cc), key);
    case FaviconHit =>
      PairObservations(SetHeader("Content-Type", "image/x-icon"), SetHeader("Cache-Control", cc), key);
    case StaticMiss(_) =>
      PairObservations(SetHeader("Cache-Control", cc), WriteHeader(404), key);
    case StaticHit(_) =>
      PairObservations(SetHeader("Content-Type", ct), SetHeader("Cache-Control", cc), key);
    case PageNotFound =>
      var pair := [SetHeader("Content-Type", "text/html"), SetHeader("Cache-Control", cc)];
      assert Head(o, ct, cc) == pair + [WriteHeader(404)];
      PairObservations(pair[0], pair[1], key);
      SingleObservations(WriteHeader(404), key);
      ObserveAppend(pair, [WriteHeader(404)], key);
    case PageHit(_) =>
      PairObservations(SetHeader("Content-Type", "text/html"), SetHeader("Cache-Control", cc), key);
  }

  /** The observations of a body send. */
  lemma SendObservations(verb: string, gzip: bool, p: Payload, key: string)
    ensures HeaderValue(Send(verb, gzip, p), key) ==
              if key == "Content-Encoding" && verb == "GET" && gzip then Some("gzip") else None
    ensures StatusCodes(Send(verb, gzip, p)) == []
    ensures BodyWrites(Send(verb, gzip, p)) == if verb == "GET" then [WriteBody(p, gzip)] else []
    ensures !SetAfterStatus(Send(verb, gzip, p), key)
    ensures Exit !in Send(verb, gzip, p)
  {
    if verb == "GET" {
      if gzip {
        PairObservations(SetHeader("Content-Encoding", "gzip"), WriteBody(p, true), key);
      } else {
        SingleObservations(WriteBody(p, false), key);
      }
    }
  }

  /** The observations of a template execution: a failure adds a 500 and ends
      the process as the very last thing. */
  lemma RenderObservations(verb: string, gzip: bool, t: Template, data: TmplData, renderOk: bool, key: string)
    ensures HeaderValue(Render(verb, gzip, t, data, renderOk), key) ==
              if key == "Content-Encoding" && verb == "GET" && gzip then Some("gzip") else None
    ensures StatusCodes(Render(verb, gzip, t, data, renderOk)) ==
              if verb == "GET" && !renderOk then [500] else []
    ensures BodyWrites(Render(verb, gzip, t, data, renderOk)) ==
              if verb == "GET" then [WriteBody(Rendered(t, data), gzip)] else []
    ensures !SetAfterStatus(Render(verb, gzip, t, data, renderOk), key)
    ensures Exit in Render(verb, gzip, t, data, renderOk) <==> verb == "GET" && !renderOk
    ensures var r := Render(verb, gzip, t, data, renderOk);
            Exit in r ==> |r| >= 2 && r[|r| - 2] == WriteHeader(500) && r[|r| - 1] == Exit
  {
    var send := Send(verb, gzip, Rendered(t, data));
    SendObservations(verb, gzip, Rendered(t, data), key);
    if verb == "GET" && !renderOk {
      PairObservations(WriteHeader(500), Exit, key);
      ObserveAppend(send, [WriteHeader(500), Exit], key);
    } else {
      assert Render(verb, gzip, t, data, renderOk) == send;
    }
  }

  /** The outcomes that write content to the body of a GET. */
  predicate HasContent(o: Outcome)
  {
    IsHit(o) || o == PageNotFound
  }

  /** The content an outcome writes to the body of a GET. */
  function ContentOf(o: Outcome, files: Files, data: TmplData): Payload
    requires HasContent(o)
    requires o.FaviconHit? ==> FaviconFile in files
    requires o.StaticHit? ==> o.key in files
  {
    match o
    case FaviconHit => Bytes(files[FaviconFile])
    case StaticHit(key) => Bytes(files[key])
    case PageHit(file) => Rendered(PageTemplate(file), data)
    case PageNotFound => Rendered(NotFoundTemplate, data)
  }

  /** What the body calls of each branch leave behind. */
  lemma TailObservations(o: Outcome, verb: string, gzip: bool, files: Files, data: TmplData, renderOk: bool,
                         key: string)
    requires o.FaviconHit? ==> FaviconFile in files
    requires o.StaticHit? ==> o.key in files
    ensures HeaderValue(Tail(o, verb, gzip, files, data, renderOk), key) ==
              if key == "Content-Encoding" && verb == "GET" && gzip && HasContent(o) then Some("gzip")
              else None
    ensures StatusCodes(Tail(o, verb, gzip, files, data, renderOk)) ==
              if RendersPage(o) && verb == "GET" && !renderOk then [500] else []
    ensures BodyWrites(Tail(o, verb, gzip, files, data, renderOk)) ==
              if o == NotAllowed then [WriteBody(Message(NotAllowedBody), false)]
              else if HasContent(o) && verb == "GET" then [WriteBody(ContentOf(o, files, data), gzip)]
              else []
    ensures !SetAfterStatus(Tail(o, verb, gzip, files, data, renderOk), key)
    ensures Exit in Tail(o, verb, gzip, files, data, renderOk) <==>
              RendersPage(o) && verb == "GET" && !renderOk
    ensures var r := Tail(o, verb, gzip, files, data, renderOk);
            Exit in r ==> |r| >= 2 && r[|r| - 2] == WriteHeader(500) && r[|r| - 1] == Exit
  {
    match o
    case NotAllowed =>
      SingleObservations(WriteBody(Message(NotAllowedBody), false), key);
    case FaviconMiss =>
    case StaticMiss(_) =>
    case FaviconHit =>
      SendObservations(verb, gzip, Bytes(files[FaviconFile]), key);
    case StaticHit(k) =>
      SendObservations(verb, gzip, Bytes(files[k]), key);
    case PageNotFound =>
      RenderObservations(verb, gzip, NotFoundTemplate, data, renderOk, key);
    case PageHit(file) =>
      RenderObservations(verb, gzip, PageTemplate(file), data, renderOk, key);
  }

  /** The observations of a whole response, from those of the head and the tail
      of its branch. */
  lemma RespondSplit(verb: string, path: string, acceptEncoding: seq<string>, files: Files, data: TmplData,
                     renderOk: bool, key: string)
    ensures var o := Classify(verb, path, files);
            var head := Head(o, ContentTypeFor(path), CacheControl(MaxAge(o)));
            var tail := Tail(o, verb, AcceptsGzip(acceptEncoding), files,
                             data, renderOk);
            var t := Respond(verb, path, acceptEncoding, files, data, renderOk);
            && HeaderValue(t, key) ==
                 (if HeaderValue(tail, key).Some? then HeaderValue(tail, key) else HeaderValue(head, key))
            && StatusCodes(t) == StatusCodes(head) + StatusCodes(tail)
            && BodyWrites(t) == BodyWrites(head) + BodyWrites(tail)
            && (SetAfterStatus(t, key) <==>
                  if StatusCodes(head) == [] then SetAfterStatus(tail, key)
                  else SetAfterStatus(head, key) || HeaderValue(tail, key).Some?)
  {
    var o := Classify(verb, path, files);
    var head := Head(o, ContentTypeFor(path), CacheControl(MaxAge(o)));
    var tail := Tail(o, verb, AcceptsGzip(acceptEncoding), files,
                     data, renderOk);
    ObserveAppend(head, tail, key);
  }

  // ---- What the handler promises, request by request.

  /** A write method gets a bare 405 and the fixed message, whatever its path;
      no other request ever gets a 405. */
  lemma MethodNotAllowed(verb: string, path: string, acceptEncoding: seq<string>, files: Files,
                         data: TmplData, renderOk: bool)
    ensures verb in DisallowedMethods ==>
              Respond(verb, path, acceptEncoding, files, data, renderOk) ==
              [WriteHeader(405), WriteBody(Message(NotAllowedBody), false)]
    ensures verb !in DisallowedMethods ==>
              405 !in StatusCodes(Respond(verb, path, acceptEncoding, files, data, renderOk))
  {
    StatusByOutcome(verb, path, acceptEncoding, files, data, renderOk);
  }

  /** The status codes written: 405 for a write method, 404 for every miss, then
      500 when a page's template fails; none (an implicit 200) for a hit. */
  lemma StatusByOutcome(verb: string, path: string, acceptEncoding: seq<string>, files: Files,
                        data: TmplData, renderOk: bool)
    ensures var o := Classify(verb, path, files);
            StatusCodes(Respond(verb, path, acceptEncoding, files, data, renderOk)) ==
              (if o == NotAllowed then [405]
               else if o == FaviconMiss || o.StaticMiss? || o == PageNotFound then [404]
               else []) +
              (if RendersPage(o) && verb == "GET" && !renderOk then [500] else [])
  {
    var o := Classify(verb, path, files);
    RespondSplit(verb, path, acceptEncoding, files, data, renderOk, "");
    HeadStatus(o, ContentTypeFor(path), CacheControl(MaxAge(o)));
    TailObservations(o, verb, AcceptsGzip(acceptEncoding), files,
                     data, renderOk, "");
  }

  /** Every branch but the 405 sets `Cache-Control`: a week when something was
      found, a day when not. */
  lemma CacheControlByOutcome(verb: string, path: string, acceptEncoding: seq<string>, files: Files,
                              data: TmplData, renderOk: bool)
    ensures var o := Classify(verb, path, files);
            HeaderValue(Respond(verb, path, acceptEncoding, files, data, renderOk), "Cache-Control") ==
              if o == NotAllowed then None
              else if IsHit(o) then Some("public, max-age=604800")
              else Some("public, max-age=86400")
  {
    var o := Classify(verb, path, files);
    RespondSplit(verb, path, acceptEncoding, files, data, renderOk, "Cache-Control");
    HeadHeaders(o, ContentTypeFor(path), CacheControl(MaxAge(o)), "Cache-Control");
    TailObservations(o, verb, AcceptsGzip(acceptEncoding), files,
                     data, renderOk, "Cache-Control");
    CacheControlWeek();
    CacheControlDay();
  }

  /** The content type: the icon type for the favicon, the extension's type for a
      static file, HTML for every page (found or not), and none on a miss of the
      favicon or a static file. */
  lemma ContentTypeByOutcome(verb: string, path: string, acceptEncoding: seq<string>, files: Files,
                             data: TmplData, renderOk: bool)
    ensures var o := Classify(verb, path, files);
            HeaderValue(Respond(verb, path, acceptEncoding, files, data, renderOk), "Content-Type") ==
              if o == FaviconHit then Some("image/x-icon")
              else if o.StaticHit? then Some(ContentTypeFor(path))
              else if RendersPage(o) then Some("text/html")
              else None
  {
    var o := Classify(verb, path, files);
    RespondSplit(verb, path, acceptEncoding, files, data, renderOk, "Content-Type");
    HeadHeaders(o, ContentTypeFor(path), CacheControl(MaxAge(o)), "Content-Type");
    TailObservations(o, verb, AcceptsGzip(acceptEncoding), files,
                     data, renderOk, "Content-Type");
  }

  /** The body: the fixed message for a write method; for a GET of anything with
      content, that content once, compressed exactly when the client accepts gzip;
      nothing otherwise (a miss of a file, or a method other than GET). */
  lemma BodyByOutcome(verb: string, path: string, acceptEncoding: seq<string>, files: Files, data: TmplData,
                      renderOk: bool)
    ensures var o := Classify(verb, path, files);
            BodyWrites(Respond(verb, path, acceptEncoding, files, data, renderOk)) ==
              if o == NotAllowed then [WriteBody(Message(NotAllowedBody), false)]
              else if HasContent(o) && verb == "GET" then
                [WriteBody(ContentOf(o, files, data),
                           AcceptsGzip(acceptEncoding))]
              else []
  {
    var o := Classify(verb, path, files);
    RespondSplit(verb, path, acceptEncoding, files, data, renderOk, "");
    HeadStatus(o, ContentTypeFor(path), CacheControl(MaxAge(o)));
    TailObservations(o, verb, AcceptsGzip(acceptEncoding), files,
                     data, renderOk, "");
  }

  /** `Content-Encoding: gzip` is set for a GET of anything with content when
      the client accepts gzip, and never otherwise. */
  lemma GzipByOutcome(verb: string, path: string, acceptEncoding: seq<string>, files: Files, data: TmplData,
                      renderOk: bool)
    ensures HeaderValue(Respond(verb, path, acceptEncoding, files, data, renderOk), "Content-Encoding") ==
              if verb == "GET" && AcceptsGzip(acceptEncoding) && HasContent(Classify(verb, path, files))
              then Some("gzip") else None
  {
    var o := Classify(verb, path, files);
    RespondSplit(verb, path, acceptEncoding, files, data, renderOk, "Content-Encoding");
    HeadHeaders(o, ContentTypeFor(path), CacheControl(MaxAge(o)), "Content-Encoding");
    TailObservations(o, verb, AcceptsGzip(acceptEncoding), files,
                     data, renderOk, "Content-Encoding");
  }

  /** The encoding set on the header map matches the body: gzip is set exactly
      when a compressed body is written. On the 404 page it is set only after
      the status (`CompressedNotFoundUnannounced`). */
  lemma GzipMatchesBody(verb: string, path: string, acceptEncoding: seq<string>, files: Files,
                        data: TmplData, renderOk: bool)
    ensures var t := Respond(verb, path, acceptEncoding, files, data, renderOk);
            HeaderValue(t, "Content-Encoding").Some? <==>
              exists b :: b in BodyWrites(t) && b.WriteBody? && b.gzipped
  {
    GzipByOutcome(verb, path, acceptEncoding, files, data, renderOk);
    BodyByOutcome(verb, path, acceptEncoding, files, data, renderOk);
  }

  /** Headers set after the status is already written: the favicon miss sets
      `Cache-Control` after its 404, and a compressed 404 page sets its
      encoding after the 404; no other header is ever set late. */
  lemma HeadersAfterStatus(verb: string, path: string, acceptEncoding: seq<string>, files: Files,
                           data: TmplData, renderOk: bool, key: string)
    ensures var o := Classify(verb, path, files);
            SetAfterStatus(Respond(verb, path, acceptEncoding, files, data, renderOk), key) <==>
              (o == FaviconMiss && key == "Cache-Control") ||
              (o == PageNotFound && verb == "GET" && AcceptsGzip(acceptEncoding) && key == "Content-Encoding")
  {
    var o := Classify(verb, path, files);
    RespondSplit(verb, path, acceptEncoding, files, data, renderOk, key);
    HeadHeaders(o, ContentTypeFor(path), CacheControl(MaxAge(o)), key);
    HeadStatus(o, ContentTypeFor(path), CacheControl(MaxAge(o)));
    TailObservations(o, verb, AcceptsGzip(acceptEncoding), files,
                     data, renderOk, key);
  }

  /** Where the end of the process can appear in the calls of an outcome. */
  lemma OutcomeExits(o: Outcome, ct: string, cc: string, verb: string, gzip: bool, files: Files,
                     data: TmplData,
                     renderOk: bool)
    requires o.FaviconHit? ==> FaviconFile in files
    requires o.StaticHit? ==> o.key in files
    ensures var t := Head(o, ct, cc) + Tail(o, verb, gzip, files, data, renderOk);
            && (Exit in t <==> RendersPage(o) && verb == "GET" && !renderOk)
            && (Exit in t ==> |t| >= 2 && t[|t| - 2] == WriteHeader(500) && t[|t| - 1] == Exit)
  {
    var head := Head(o, ct, cc);
    var tail := Tail(o, verb, gzip, files, data, renderOk);
    HeadStatus(o, ct, cc);
    TailObservations(o, verb, gzip, files, data, renderOk, "");
    var t := head + tail;
    assert Exit in t <==> Exit in head || Exit in tail;
    if Exit in tail {
      assert t[|t| - 2] == tail[|tail| - 2] && t[|t| - 1] == tail[|tail| - 1];
    }
  }

  /** A failing template ends the process right after setting 500, and nothing
      else ever ends it. */
  lemma RenderErrorExits(verb: string, path: string, acceptEncoding: seq<string>, files: Files,
                         data: TmplData, renderOk: bool)
    ensures var t := Respond(verb, path, acceptEncoding, files, data, renderOk);
            Exit in t <==> RendersPage(Classify(verb, path, files)) && verb == "GET" && !renderOk
    ensures var t := Respond(verb, path, acceptEncoding, files, data, renderOk);
            Exit in t ==> |t| >= 2 && t[|t| - 2] == WriteHeader(500) && t[|t| - 1] == Exit
  {
    var o := Classify(verb, path, files);
    OutcomeExits(o, ContentTypeFor(path), CacheControl(MaxAge(o)), verb, AcceptsGzip(acceptEncoding),
                 files, data, renderOk);
  }

  /** A path that starts with `/static` but not with `/static/` (`/static` itself,
      `/staticfoo`) keeps its leading `/` as the lookup key, which names no file:
      it is always a static miss, never a page. */
  lemma SlashlessStaticPathMisses(verb: string, path: string, files: Files)
    requires verb !in DisallowedMethods
    requires StaticPrefix <= path && !(StaticDir <= path)
    requires WellFormedFiles(files)
    ensures Classify(verb, path, files) == StaticMiss(path)
  {
    assert path[0] == '/' && path[1] == StaticPrefix[1] == 's' && FaviconPath[1] == 'f';
  }

  /** Every registered page is reachable: no page path is taken by the favicon or
      the static branch. */
  lemma RegisteredPages(verb: string, path: string, files: Files)
    requires verb !in DisallowedMethods
    requires path in Pages
    ensures Classify(verb, path, files) == PageHit(Pages[path])
  {
    assert path == "/" || path == "/about" || path == "/particles" || path == "/resume";
    assert |path| < |StaticPrefix| || path[1] != StaticPrefix[1];
  }

  /** A request for the stylesheet, when the file is there: a static hit, sent
      as `text/css` and cacheable for a week. */
  lemma StyleSheetRequests(verb: string, path: string, acceptEncoding: seq<string>, files: Files,
                           data: TmplData, renderOk: bool)
    requires verb !in DisallowedMethods
    requires path == "/static/style.css"
    requires "style.css" in files
    ensures Classify(verb, path, files) == StaticHit("style.css")
    ensures var t := Respond(verb, path, acceptEncoding, files, data, renderOk);
            && HeaderValue(t, "Content-Type") == Some("text/css")
            && HeaderValue(t, "Cache-Control") == Some("public, max-age=604800")
  {
    assert StaticDir <= path && path[8..] == "style.css";
    StyleSheetType();
    ContentTypeByOutcome(verb, path, acceptEncoding, files, data, renderOk);
    CacheControlByOutcome(verb, path, acceptEncoding, files, data, renderOk);
  }

  // ---- Headers as a writer that sends them with the status sees them.

  /** The calls of a compressed 404 page, whatever the header values. */
  lemma NotFoundSent(ct: string, cc: string, files: Files, data: TmplData, renderOk: bool)
    ensures var t := Head(PageNotFound, ct, cc) + Tail(PageNotFound, "GET", true, files, data, renderOk);
            && HeaderValue(Sent(t), "Content-Encoding") == None
            && WriteBody(Rendered(NotFoundTemplate, data), true) in t
  {
    var t := Head(PageNotFound, ct, cc) + Tail(PageNotFound, "GET", true, files, data, renderOk);
    assert t == [SetHeader("Content-Type", "text/html"), SetHeader("Cache-Control", cc), WriteHeader(404),
                 SetHeader("Content-Encoding", "gzip"), WriteBody(Rendered(NotFoundTemplate, data), true)] +
                (if renderOk then [] else [WriteHeader(500), Exit]);
    SentIs(t, 2);
    PairObservations(t[0], t[1], "Content-Encoding");
  }

  /** A compressed 404 page: gzip is set on the header map only after the 404
      has been written, so no `Content-Encoding` goes out with the status, yet
      the body is compressed. */
  lemma CompressedNotFoundUnannounced(verb: string, path: string, acceptEncoding: seq<string>, files: Files,
                                      data: TmplData, renderOk: bool)
    requires verb == "GET" && AcceptsGzip(acceptEncoding)
    requires PageBranch(verb, path) && path !in Pages
    ensures var t := Respond(verb, path, acceptEncoding, files, data, renderOk);
            && HeaderValue(Sent(t), "Content-Encoding") == None
            && WriteBody(Rendered(NotFoundTemplate, data), true) in t
  {
    var o := Classify(verb, path, files);
    assert o == PageNotFound;
    NotFoundSent(ContentTypeFor(path), CacheControl(MaxAge(o)), files, data, renderOk);
  }

  /** A favicon miss: its 404 is written before any header is set, so no
      `Cache-Control` goes out with it although one is set afterwards. */
  lemma FaviconMissUncached(verb: string, path: string, acceptEncoding: seq<string>, files: Files, data: TmplData,
                            renderOk: bool)
    requires verb !in DisallowedMethods && path == FaviconPath && FaviconFile !in files
    ensures var t := Respond(verb, path, acceptEncoding, files, data, renderOk);
            && Sent(t) == []
            && HeaderValue(t, "Cache-Control").Some?
  {
    RespondFavicon(verb, path, acceptEncoding, files, data, renderOk);
    var t := FaviconCalls(verb, acceptEncoding, files);
    PairObservations(t[0], t[1], "Cache-Control");
  }

  /** The calls of an outcome with every header set before the status, as the
      static miss already does (main.go:174-175). Only the favicon miss and the
      404 page differ from the calls the handler makes. */
  function CorrectedCalls(o: Outcome, ct: string, cc: string, verb: string, gzip: bool, files: Files,
                          data: TmplData, renderOk: bool): seq<Write>
    requires o.FaviconHit? ==> FaviconFile in files
    requires o.StaticHit? ==> o.key in files
  {
    match o
    case FaviconMiss => [SetHeader("Cache-Control", cc), WriteHeader(404)]
    case PageNotFound =>
      [SetHeader("Content-Type", "text/html"), SetHeader("Cache-Control", cc)] +
      (if verb == "GET" && gzip then [SetHeader("Content-Encoding", "gzip")] else []) +
      [WriteHeader(404)] +
      (if verb == "GET" then [WriteBody(Rendered(NotFoundTemplate, data), gzip)] else []) +
      (if verb == "GET" && !renderOk then [WriteHeader(500), Exit] else [])
    case _ => Head(o, ct, cc) + Tail(o, verb, gzip, files, data, renderOk)
  }

  /** The handler's calls in the corrected order. */
  function CorrectedRespond(verb: string, path: string, acceptEncoding: seq<string>, files: Files, data: TmplData,
                            renderOk: bool): seq<Write>
  {
    var o := Classify(verb, path, files);
    CorrectedCalls(o, ContentTypeFor(path), CacheControl(MaxAge(o)), verb, AcceptsGzip(acceptEncoding), files,
                   data, renderOk)
  }

  /** A run of header calls followed by something else is exactly what is sent. */
  lemma SentPrefix(hs: seq<Write>, rest: seq<Write>)
    requires forall i :: 0 <= i < |hs| ==> hs[i].SetHeader?
    requires rest != [] ==> !rest[0].SetHeader?
    ensures Sent(hs + rest) == hs
  {
    SentIs(hs + rest, |hs|);
    assert (hs + rest)[..|hs|] == hs;
  }

  /** Headers, then a body send and possibly a failure: what is sent is the
      headers, plus gzip when the body is compressed. */
  lemma SendSent(hs: seq<Write>, verb: string, gzip: bool, p: Payload, fail: seq<Write>, key: string)
    requires forall i :: 0 <= i < |hs| ==> hs[i].SetHeader?
    requires fail == [] || fail == [WriteHeader(500), Exit]
    ensures HeaderValue(Sent(hs + Send(verb, gzip, p) + fail), key) ==
              if key == "Content-Encoding" && verb == "GET" && gzip then Some("gzip") else HeaderValue(hs, key)
  {
    var ce := SetHeader("Content-Encoding", "gzip");
    if verb == "GET" && gzip {
      assert hs + Send(verb, gzip, p) + fail == (hs + [ce]) + ([WriteBody(p, true)] + fail);
      SentPrefix(hs + [ce], [WriteBody(p, true)] + fail);
      HeaderValueAppend(hs, [ce], key);
      SingleObservations(ce, key);
    } else if verb == "GET" {
      assert hs + Send(verb, gzip, p) + fail == hs + ([WriteBody(p, false)] + fail);
      SentPrefix(hs, [WriteBody(p, false)] + fail);
    } else {
      assert hs + Send(verb, gzip, p) + fail == hs + fail;
      SentPrefix(hs, fail);
    }
  }

  /** In the corrected order, a header goes out with the status exactly as the
      branch sets it, and gzip is sent exactly for a GET of content when the
      client accepts it. */
  lemma CorrectedSent(o: Outcome, ct: string, cc: string, verb: string, gzip: bool, files: Files,
                          data: TmplData, renderOk: bool, key: string)
    requires o.FaviconHit? ==> FaviconFile in files
    requires o.StaticHit? ==> o.key in files
    ensures HeaderValue(Sent(CorrectedCalls(o, ct, cc, verb, gzip, files, data, renderOk)), key) ==
              if key == "Content-Encoding" && verb == "GET" && gzip && HasContent(o) then Some("gzip")
              else HeaderValue(Head(o, ct, cc), key)
  {
    if o == PageNotFound {
      CorrectedNotFoundSent(ct, cc, verb, gzip, data, renderOk, key);
    } else if IsHit(o) {
      CorrectedHitSent(o, ct, cc, verb, gzip, files, data, renderOk, key);
    } else {
      CorrectedMissSent(o, ct, cc, verb, gzip, files, data, renderOk, key);
    }
  }

  /** The refusal and the file misses send their headers, if any, with the status. */
  lemma CorrectedMissSent(o: Outcome, ct: string, cc: string, verb: string, gzip: bool, files: Files,
                          data: TmplData, renderOk: bool, key: string)
    requires o.FaviconHit? ==> FaviconFile in files
    requires o.StaticHit? ==> o.key in files
    requires o == NotAllowed || o == FaviconMiss || o.StaticMiss?
    ensures HeaderValue(Sent(CorrectedCalls(o, ct, cc, verb, gzip, files, data, renderOk)), key) ==
              if key == "Content-Encoding" && verb == "GET" && gzip && HasContent(o) then Some("gzip")
              else HeaderValue(Head(o, ct, cc), key)
  {
    var t := CorrectedCalls(o, ct, cc, verb, gzip, files, data, renderOk);
    HeadHeaders(o, ct, cc, key);
    match o
    case NotAllowed =>
      SentPrefix([], t);
    case FaviconMiss =>
      SentPrefix([SetHeader("Cache-Control", cc)], [WriteHeader(404)]);
      SingleObservations(SetHeader("Cache-Control", cc), key);
    case StaticMiss(_) =>
      SentPrefix([SetHeader("Cache-Control", cc)], [WriteHeader(404)]);
      SingleObservations(SetHeader("Cache-Control", cc), key);
  }

  /** The hits, whose order the correction keeps. */
  lemma CorrectedHitSent(o: Outcome, ct: string, cc: string, verb: string, gzip: bool, files: Files,
                          data: TmplData, renderOk: bool, key: string)
    requires o.FaviconHit? ==> FaviconFile in files
    requires o.StaticHit? ==> o.key in files
    requires IsHit(o)
    ensures HeaderValue(Sent(CorrectedCalls(o, ct, cc, verb, gzip, files, data, renderOk)), key) ==
              if key == "Content-Encoding" && verb == "GET" && gzip && HasContent(o) then Some("gzip")
              else HeaderValue(Head(o, ct, cc), key)
  {
    var t := CorrectedCalls(o, ct, cc, verb, gzip, files, data, renderOk);
    var fail := if verb == "GET" && !renderOk then [WriteHeader(500), Exit] else [];
    match o
    case FaviconHit =>
      assert t == Head(o, ct, cc) + Send(verb, gzip, Bytes(files[FaviconFile])) + [];
      SendSent(Head(o, ct, cc), verb, gzip, Bytes(files[FaviconFile]), [], key);
    case StaticHit(k) =>
      assert t == Head(o, ct, cc) + Send(verb, gzip, Bytes(files[k])) + [];
      SendSent(Head(o, ct, cc), verb, gzip, Bytes(files[k]), [], key);
    case PageHit(file) =>
      assert t == Head(o, ct, cc) + Send(verb, gzip, Rendered(PageTemplate(file), data)) + fail;
      SendSent(Head(o, ct, cc), verb, gzip, Rendered(PageTemplate(file), data), fail, key);
  }

  /** The corrected 404 page sends its type, lifetime and encoding with the 404. */
  lemma CorrectedNotFoundSent(ct: string, cc: string, verb: string, gzip: bool, data: TmplData, renderOk: bool,
                              key: string)
    ensures HeaderValue(Sent(CorrectedCalls(PageNotFound, ct, cc, verb, gzip, map[], data, renderOk)), key) ==
              if key == "Content-Encoding" && verb == "GET" && gzip then Some("gzip")
              else HeaderValue(Head(PageNotFound, ct, cc), key)
  {
    var t := CorrectedCalls(PageNotFound, ct, cc, verb, gzip, map[], data, renderOk);
    var hs := [SetHeader("Content-Type", "text/html"), SetHeader("Cache-Control", cc)];
    var ce := SetHeader("Content-Encoding", "gzip");
    HeadHeaders(PageNotFound, ct, cc, key);
    PairObservations(hs[0], hs[1], key);
    var n := if verb == "GET" && gzip then 3 else 2;
    assert t[n] == WriteHeader(404);
    if verb == "GET" && gzip {
      assert t == (hs + [ce]) + t[n..];
      SentPrefix(hs + [ce], t[n..]);
      HeaderValueAppend(hs, [ce], key);
      SingleObservations(ce, key);
    } else {
      assert t == hs + t[n..];
      SentPrefix(hs, t[n..]);
    }
  }

  /** The corrected order makes the same calls as the code: only the favicon miss
      and the 404 page are reordered, and they keep their calls. */
  lemma CorrectedReorders(o: Outcome, ct: string, cc: string, verb: string, gzip: bool, files: Files,
                          data: TmplData, renderOk: bool)
    requires o.FaviconHit? ==> FaviconFile in files
    requires o.StaticHit? ==> o.key in files
    ensures o != FaviconMiss && o != PageNotFound ==>
              CorrectedCalls(o, ct, cc, verb, gzip, files, data, renderOk) ==
              Head(o, ct, cc) + Tail(o, verb, gzip, files, data, renderOk)
    ensures multiset(CorrectedCalls(o, ct, cc, verb, gzip, files, data, renderOk)) ==
            multiset(Head(o, ct, cc) + Tail(o, verb, gzip, files, data, renderOk))
  {
    if o == PageNotFound {
      NotFoundReordered(ct, cc, verb, gzip, files, data, renderOk);
    } else if o == FaviconMiss {
      assert CorrectedCalls(o, ct, cc, verb, gzip, files, data, renderOk) == [SetHeader("Cache-Control", cc)] + [WriteHeader(404)];
      assert Head(o, ct, cc) + Tail(o, verb, gzip, files, data, renderOk) == [WriteHeader(404)] + [SetHeader("Cache-Control", cc)];
    }
  }

  /** The corrected 404 page moves its encoding header before the status. */
  lemma NotFoundReordered(ct: string, cc: string, verb: string, gzip: bool, files: Files, data: TmplData,
                          renderOk: bool)
    ensures multiset(CorrectedCalls(PageNotFound, ct, cc, verb, gzip, files, data, renderOk)) ==
            multiset(Head(PageNotFound, ct, cc) + Tail(PageNotFound, verb, gzip, files, data, renderOk))
  {
    var hs := [SetHeader("Content-Type", "text/html"), SetHeader("Cache-Control", cc)];
    var enc := if verb == "GET" && gzip then [SetHeader("Content-Encoding", "gzip")] else [];
    var rest := (if verb == "GET" then [WriteBody(Rendered(NotFoundTemplate, data), gzip)] else []) +
                (if verb == "GET" && !renderOk then [WriteHeader(500), Exit] else []);
    NotFoundShapes(ct, cc, verb, gzip, files, data, renderOk);
    MovedBefore(hs, enc, [WriteHeader(404)], rest);
  }

  /** Both orders of the 404 page, as the header run, the encoding, the status
      and the rest. */
  lemma NotFoundShapes(ct: string, cc: string, verb: string, gzip: bool, files: Files, data: TmplData,
                       renderOk: bool)
    ensures var hs := [SetHeader("Content-Type", "text/html"), SetHeader("Cache-Control", cc)];
            var enc := if verb == "GET" && gzip then [SetHeader("Content-Encoding", "gzip")] else [];
            var rest := (if verb == "GET" then [WriteBody(Rendered(NotFoundTemplate, data), gzip)] else []) +
                        (if verb == "GET" && !renderOk then [WriteHeader(500), Exit] else []);
            && CorrectedCalls(PageNotFound, ct, cc, verb, gzip, files, data, renderOk) ==
                 hs + enc + [WriteHeader(404)] + rest
            && Head(PageNotFound, ct, cc) + Tail(PageNotFound, verb, gzip, files, data, renderOk) ==
                 hs + [WriteHeader(404)] + (enc + rest)
  {
  }

  /** Moving `x` in front of `y` keeps the same calls. */
  lemma MovedBefore(a: seq<Write>, x: seq<Write>, y: seq<Write>, b: seq<Write>)
    ensures multiset(a + x + y + b) == multiset(a + y + (x + b))
  {
    assert a + x + y + b == a + x + (y + b);
  }

  /** Every request answered in the corrected order: each answer but the 405
      sends its `Cache-Control` with the status, `Content-Encoding: gzip` is sent
      exactly when the body is compressed, and the calls are the handler's own,
      only reordered. */
  lemma CorrectedRespondHeaders(verb: string, path: string, acceptEncoding: seq<string>, files: Files,
                                data: TmplData, renderOk: bool)
    ensures var o := Classify(verb, path, files);
            var t := CorrectedRespond(verb, path, acceptEncoding, files, data, renderOk);
            && HeaderValue(Sent(t), "Content-Encoding") ==
                 (if verb == "GET" && AcceptsGzip(acceptEncoding) && HasContent(o) then Some("gzip") else None)
            && HeaderValue(Sent(t), "Cache-Control") ==
                 (if o == NotAllowed then None else Some(CacheControl(MaxAge(o))))
            && multiset(t) == multiset(Respond(verb, path, acceptEncoding, files, data, renderOk))
  {
    var o := Classify(verb, path, files);
    var ct, cc, gzip := ContentTypeFor(path), CacheControl(MaxAge(o)), AcceptsGzip(acceptEncoding);
    CorrectedSent(o, ct, cc, verb, gzip, files, data, renderOk, "Content-Encoding");
    CorrectedSent(o, ct, cc, verb, gzip, files, data, renderOk, "Cache-Control");
    HeadHeaders(o, ct, cc, "Content-Encoding");
    HeadHeaders(o, ct, cc, "Cache-Control");
    CorrectedReorders(o, ct, cc, verb, gzip, files, data, renderOk);
  }
}
