/**
 * The `serve-workbench-html` dev-server middleware: a request for `/` or
 * `/index.html` is answered with the workbench's own `index.html`, first run
 * through the host's HTML transform and then retargeted so that its script
 * entry points at the workbench's `src/main.ts` through the `/@fs` scheme;
 * every other request is handed on to the next middleware.
 */
module ServeWorkbenchHtml {
  import opened Text

  const IndexHtml: string := "index.html"
  const MainScript: string := "src/main.ts"

  /** The host's URL prefix for serving a file by absolute filesystem path. */
  const FsPrefix: string := "/@fs"

  /** The entry reference the template is expected to carry. */
  const EntryPlaceholder: string := "src=\"/src/main.ts\""

  const ContentType: string := "Content-Type"
  const TextHtml: string := "text/html"

  /**
   * What the middleware takes from its surroundings: the package directory
   * (`__dirname`), `path.resolve`, reading a file as UTF-8, and the dev
   * server's `transformIndexHtml(url, html)`.
   */
  datatype Host = Host(
    dirname: string,
    resolve: (string, string) -> string,
    readFile: string -> string,
    transformIndexHtml: (string, string) -> string)

  /** Only the root and the literal index document are intercepted. */
  predicate IsWorkbenchPage(url: string) {
    url == "/" || url == "/index.html"
  }

  /** The template lives in the package directory, whatever the request. */
  function TemplatePath(host: Host): (path: string) {
    host.resolve(host.dirname, IndexHtml)
  }

  /** The absolute entry URL: `/@fs` directly followed by the resolved path, with no separator rewriting. */
  function EntryPath(host: Host): (e: string)
    ensures |e| == |FsPrefix| + |host.resolve(host.dirname, MainScript)|
    ensures e[..|FsPrefix|] == FsPrefix
    ensures e[|FsPrefix|..] == host.resolve(host.dirname, MainScript)
  {
    FsPrefix + host.resolve(host.dirname, MainScript)
  }

  /** The attribute that takes the placeholder's place. */
  function EntryAttribute(entryPath: string): (attr: string)
    ensures |attr| == |entryPath| + 6
    ensures attr[..5] == "src=\"" && attr[5..|attr| - 1] == entryPath && attr[|attr| - 1] == '"'
  {
    "src=\"" + entryPath + "\""
  }

  /** Retargets the first placeholder of `html` at `entryPath`. */
  function RewriteEntry(html: string, entryPath: string): (page: string)
    ensures Absent(html, EntryPlaceholder) ==> page == html
  {
    ReplaceFirst(html, EntryPlaceholder, EntryAttribute(entryPath))
  }

  /** The transformed template, as the rewrite receives it. */
  function TransformedTemplate(host: Host, url: string): (html: string) {
    host.transformIndexHtml(url, host.readFile(TemplatePath(host)))
  }

  /** The page sent for an intercepted request: transform first, then rewrite. */
  function ServedHtml(host: Host, url: string): (page: string) {
    RewriteEntry(TransformedTemplate(host, url), EntryPath(host))
  }

  /** `/index.html` followed by anything at all, a query string included, is not intercepted. */
  lemma OnlyExactPathsIntercepted(url: string, rest: string)
    ensures IsWorkbenchPage("/index.html" + rest) <==> rest == ""
    ensures IsWorkbenchPage(url) ==> |url| == 1 || |url| == 11
    ensures !IsWorkbenchPage("") && !IsWorkbenchPage("/foo") && !IsWorkbenchPage("/index.html?v=1")
  {
    if rest != "" {
      assert |"/index.html" + rest| > |"/index.html"|;
    }
  }

  /**
   * When the transformed page carries the placeholder first at `k`, the
   * served page is that page with just this occurrence retargeted: the
   * text before it and after it, later placeholders included, is kept.
   */
  lemma ServedHtmlRetargetsFirstEntry(host: Host, url: string, k: nat)
    requires IsFirstOccurrence(TransformedTemplate(host, url), EntryPlaceholder, k)
    ensures ServedHtml(host, url)
            == TransformedTemplate(host, url)[..k] + EntryAttribute(EntryPath(host))
               + TransformedTemplate(host, url)[k + |EntryPlaceholder|..]
    ensures OccursAt(ServedHtml(host, url), EntryAttribute(EntryPath(host)), k)
  {
    ReplaceFirstAt(TransformedTemplate(host, url), EntryPlaceholder, EntryAttribute(EntryPath(host)), k);
  }

  /**
   * The rewrite sees the transform's output, not the template: when that
   * output has no placeholder, it is served unchanged, whatever the
   * template held.
   */
  lemma ServedHtmlWithoutPlaceholder(host: Host, url: string)
    requires Absent(TransformedTemplate(host, url), EntryPlaceholder)
    ensures ServedHtml(host, url) == TransformedTemplate(host, url)
  {
    ReplaceFirstAbsent(TransformedTemplate(host, url), EntryPlaceholder, EntryAttribute(EntryPath(host)));
  }

  /** The request URL reaches the page only through the host's transform. */
  lemma ServedHtmlDependsOnUrlThroughTransform(host: Host, u: string, v: string)
    requires TransformedTemplate(host, u) == TransformedTemplate(host, v)
    ensures ServedHtml(host, u) == ServedHtml(host, v)
  {
  }

  /**
   * The parts of the server response and of the middleware chain the
   * handler touches: headers, body, whether the response has ended, and how
   * often it has called `next()`.
   */
  class Response {
    var headers: map<string, string>
    var body: string
    var ended: bool
    var nextCalls: nat

    constructor ()
      ensures headers == map[] && body == "" && !ended && nextCalls == 0
    {
      headers, body, ended, nextCalls := map[], "", false, 0;
    }

    /** `res.setHeader(name, value)`; Node refuses it once the response has ended. */
    method SetHeader(name: string, value: string)
      requires !ended
      modifies this
      ensures headers == old(headers)[name := value]
      ensures body == old(body) && ended == old(ended) && nextCalls == old(nextCalls)
    {
      headers := headers[name := value];
    }

    /** `res.end(chunk)`: writes the last chunk and ends the response; a second end is an error in Node. */
    method End(chunk: string)
      requires !ended
      modifies this
      ensures body == old(body) + chunk && ended
      ensures headers == old(headers) && nextCalls == old(nextCalls)
    {
      body := body + chunk;
      ended := true;
    }

    /** The middleware's `next()` callback. */
    method Next()
      modifies this
      ensures nextCalls == old(nextCalls) + 1
      ensures headers == old(headers) && body == old(body) && ended == old(ended)
    {
      nextCalls := nextCalls + 1;
    }
  }

  /**
   * The middleware for one request: an intercepted request gets the HTML
   * content type and the served page and never reaches `next()`; any other
   * request calls `next()` once and leaves the response as it was.
   */
  method Handle(host: Host, url: string, res: Response)
    requires IsWorkbenchPage(url) ==> !res.ended
    modifies res
    ensures IsWorkbenchPage(url) ==>
              res.headers == old(res.headers)[ContentType := TextHtml]
              && res.body == old(res.body) + ServedHtml(host, url)
              && res.ended
              && res.nextCalls == old(res.nextCalls)
    ensures !IsWorkbenchPage(url) ==>
              res.headers == old(res.headers)
              && res.body == old(res.body)
              && res.ended == old(res.ended)
              && res.nextCalls == old(res.nextCalls) + 1
  {
    if IsWorkbenchPage(url) {
      var htmlPath := TemplatePath(host);
      var html := host.readFile(htmlPath);
      html := host.transformIndexHtml(url, html);
      var entryPath := EntryPath(host);
      html := RewriteEntry(html, entryPath);
      res.SetHeader(ContentType, TextHtml);
      res.End(html);
      return;
    }
    res.Next();
  }
}
