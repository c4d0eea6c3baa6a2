/** The CSR-fallback server plugin: which requests count as page requests,
    how a failed server-rendered page is replaced by a client-rendered shell
    that reuses the page's own `_nuxt` scripts and stylesheets, and when the
    response hook performs that replacement. The two regular-expression scans
    of the failed page are an input: the captured `src` and `href` values in
    document order. */
module CsrFallback {
  import opened Types

  // ---------------------------------------------------------------------
  // Strings

  /** `p` occurs in `s` starting at index `i`. */
  predicate OccursAt(s: string, p: string, i: int) {
    0 <= i <= |s| - |p| && s[i..i + |p|] == p
  }

  /** `s` contains `p` somewhere (`s.includes(p)`). */
  predicate Contains(s: string, p: string) {
    exists i :: 0 <= i <= |s| - |p| && OccursAt(s, p, i)
  }

  predicate EndsWith(s: string, suffix: string) {
    |suffix| <= |s| && s[|s| - |suffix|..] == suffix
  }

  lemma ContainsEnd(a: string, m: string)
    ensures Contains(a + m, m)
  {
    assert OccursAt(a + m, m, |a|);
  }

  lemma ContainsExtend(s: string, m: string, b: string)
    requires Contains(s, m)
    ensures Contains(s + b, m)
  {
    var i :| 0 <= i <= |s| - |m| && OccursAt(s, m, i);
    assert (s + b)[i..i + |m|] == s[i..i + |m|];
    assert OccursAt(s + b, m, i);
  }

  lemma ContainsTransitive(s: string, m: string, p: string)
    requires Contains(s, m) && Contains(m, p)
    ensures Contains(s, p)
  {
    var i :| 0 <= i <= |s| - |m| && OccursAt(s, m, i);
    var j :| 0 <= j <= |m| - |p| && OccursAt(m, p, j);
    assert s[i..i + |m|] == m && m[j..j + |p|] == p;
    forall t | 0 <= t < |p| ensures s[i + j..i + j + |p|][t] == p[t] {
      assert s[i + j + t] == s[i..i + |m|][j + t];
    }
    assert s[i + j..i + j + |p|] == p;
    assert OccursAt(s, p, i + j);
  }

  /** The ASCII case folding of a regular expression with the `i` flag and
      no `u` flag: only ASCII letters fold onto ASCII letters. */
  function UpperAscii(c: char): char {
    if 'a' <= c <= 'z' then (c as int - 32) as char else c
  }

  predicate StartsWithIgnoreCase(s: string, p: string) {
    |p| <= |s| && forall i :: 0 <= i < |p| ==> UpperAscii(s[i]) == UpperAscii(p[i])
  }

  predicate ContainsIgnoreCase(s: string, p: string) {
    exists i :: 0 <= i <= |s| - |p| && StartsWithIgnoreCase(s[i..], p)
  }

  /** The characters `.` does not match. */
  predicate IsLineTerminator(c: char) {
    c == '\n' || c == '\r' || c == '\U{2028}' || c == '\U{2029}'
  }

  predicate NoLineTerminator(s: string) {
    forall i :: 0 <= i < |s| ==> !IsLineTerminator(s[i])
  }

  // ---------------------------------------------------------------------
  // isDocumentRequest

  /** The four fixed alternatives of `SKIP_PATHS`, each right after the leading `/`. */
  const SkipPrefixes: seq<string> := ["api", "_nuxt", "__nuxt", "favicon.ico"]

  /** The asset extensions of `SKIP_PATHS` (`woff2?` is "woff" and "woff2"). */
  const AssetExtensions: seq<string> :=
    ["ico", "png", "jpg", "jpeg", "gif", "svg", "webp", "js", "css", "woff", "woff2"]

  /** The needle of `DOCUMENT_ACCEPT`. */
  const DocumentAccept := "text/html"

  /** `(\?.*)?$`: nothing, or a `?` and then no line terminator up to the end. */
  predicate QueryTail(r: string) {
    r == [] || (r[0] == '?' && NoLineTerminator(r[1..]))
  }

  /** An asset extension (any case) followed by `QueryTail`. */
  predicate ExtensionTail(t: string) {
    exists e :: e in AssetExtensions && StartsWithIgnoreCase(t, e) && QueryTail(t[|e|..])
  }

  /** The matcher for `.*\.(ext)(\?.*)?$` from position `j`: at each position
      either the dot of the extension is here, or `.*` consumes one more
      character, which must not be a line terminator. */
  function AssetSuffixFrom(path: string, j: nat): bool
    decreases |path| - j
  {
    if j >= |path| then false
    else (path[j] == '.' && ExtensionTail(path[j + 1..]))
         || (!IsLineTerminator(path[j]) && AssetSuffixFrom(path, j + 1))
  }

  /** `SKIP_PATHS.test(path)` */
  predicate SkipPath(path: string) {
    && |path| >= 1 && path[0] == '/'
    && ((exists p :: p in SkipPrefixes && StartsWithIgnoreCase(path[1..], p))
        || AssetSuffixFrom(path, 1))
  }

  /** `isDocumentRequest(path, accept)`; an absent Accept header is "". */
  predicate IsDocumentRequest(path: string, accept: string) {
    !SkipPath(path) && accept != "" && ContainsIgnoreCase(accept, DocumentAccept)
  }

  /** What the asset alternative of `SKIP_PATHS` matches, stated directly: a
      dot at some position `k`, no line terminator between `j` and `k`, and an
      asset extension with an optional query after it. */
  predicate AssetDotAt(path: string, j: nat, k: nat) {
    j <= k < |path| && path[k] == '.' && NoLineTerminator(path[j..k]) && ExtensionTail(path[k + 1..])
  }

  lemma {:induction false} AssetSuffixFromFindsDot(path: string, j: nat) returns (k: nat)
    requires AssetSuffixFrom(path, j)
    ensures AssetDotAt(path, j, k)
    decreases |path| - j
  {
    if path[j] == '.' && ExtensionTail(path[j + 1..]) {
      k := j;
    } else {
      assert !IsLineTerminator(path[j]) && AssetSuffixFrom(path, j + 1);
      k := AssetSuffixFromFindsDot(path, j + 1);
      assert NoLineTerminator(path[j..k]) by {
        forall i | 0 <= i < k - j ensures !IsLineTerminator(path[j..k][i]) {
          if i > 0 {
            assert path[j..k][i] == path[j + 1..k][i - 1];
          }
        }
      }
    }
  }

  lemma {:induction false} AssetDotIsFound(path: string, j: nat, k: nat)
    requires AssetDotAt(path, j, k)
    ensures AssetSuffixFrom(path, j)
    decreases k - j
  {
    if k > j {
      assert path[j..k][0] == path[j];
      var rest, whole := path[j + 1..k], path[j..k];
      forall i | 0 <= i < |rest| ensures !IsLineTerminator(rest[i]) {
        assert rest[i] == whole[i + 1];
      }
      assert AssetDotAt(path, j + 1, k);
      AssetDotIsFound(path, j + 1, k);
    }
  }

  lemma AssetSuffixFromMeans(path: string, j: nat)
    ensures AssetSuffixFrom(path, j) <==> exists k :: AssetDotAt(path, j, k)
  {
    if AssetSuffixFrom(path, j) {
      var k := AssetSuffixFromFindsDot(path, j);
    }
    if exists k :: AssetDotAt(path, j, k) {
      var k :| AssetDotAt(path, j, k);
      AssetDotIsFound(path, j, k);
    }
  }

  /** A page request is exactly a path none of the `SKIP_PATHS` alternatives
      matches, sent with an Accept header that mentions `text/html` in any case. */
  lemma IsDocumentRequestMeans(path: string, accept: string)
    ensures IsDocumentRequest(path, accept) <==>
              && !(|path| >= 1 && path[0] == '/'
                   && ((exists p :: p in SkipPrefixes && StartsWithIgnoreCase(path[1..], p))
                       || (exists k :: AssetDotAt(path, 1, k))))
              && ContainsIgnoreCase(accept, DocumentAccept)
  {
    AssetSuffixFromMeans(path, 1);
  }

  /** Paths under `/api`, `/_nuxt`, `/__nuxt` and `/favicon.ico`, in any case, are not page requests. */
  lemma SkippedPrefixIsNotDocument(path: string, p: string, accept: string)
    requires p in SkipPrefixes && |path| >= 1 && path[0] == '/' && StartsWithIgnoreCase(path[1..], p)
    ensures !IsDocumentRequest(path, accept)
  {
  }

  /** A path made of `/`, a line with no line terminator, a dot, an asset
      extension and an optional query is not a page request. */
  lemma AssetPathIsNotDocument(dir: string, ext: string, query: string, accept: string)
    requires NoLineTerminator(dir) && ext in AssetExtensions && QueryTail(query)
    ensures !IsDocumentRequest("/" + dir + "." + ext + query, accept)
  {
    var path := "/" + dir + "." + ext + query;
    var k := 1 + |dir|;
    assert path[1..k] == dir;
    assert path[k + 1..] == ext + query;
    assert StartsWithIgnoreCase(path[k + 1..], ext);
    assert (ext + query)[|ext|..] == query;
    assert AssetDotAt(path, 1, k);
    AssetSuffixFromMeans(path, 1);
  }

  /** Without `text/html` in the Accept header, in any case, nothing is a page request. */
  lemma AcceptWithoutHtmlIsNotDocument(path: string, accept: string)
    requires !ContainsIgnoreCase(accept, DocumentAccept)
    ensures !IsDocumentRequest(path, accept)
  {
  }

  // ---------------------------------------------------------------------
  // buildCsrFallbackHtml

  /** The captured `src` values of `<script ... src=...>` tags and `href` values
      of `<link ... href=...>` tags, in document order. */
  datatype Captures = Captures(scriptSrcs: seq<string>, linkHrefs: seq<string>)

  function ScriptTag(src: string): string {
    "<script src=\"" + src + "\" defer></script>"
  }

  function LinkTag(href: string): string {
    "<link rel=\"stylesheet\" href=\"" + href + "\">"
  }

  /** The scripts kept: those whose URL mentions `_nuxt` or `__nuxt`. */
  predicate KeepScript(src: string) {
    Contains(src, "_nuxt") || Contains(src, "__nuxt")
  }

  /** The stylesheets kept: those under `_nuxt` or `__nuxt`, or ending in `.css`. */
  predicate KeepLink(href: string) {
    Contains(href, "_nuxt") || Contains(href, "__nuxt") || EndsWith(href, ".css")
  }

  /** The tags the script loop pushes for the captured values `srcs`. */
  function ScriptTags(srcs: seq<string>): seq<string> {
    if srcs == [] then []
    else
      var last := srcs[|srcs| - 1];
      ScriptTags(srcs[..|srcs| - 1]) + (if KeepScript(last) then [ScriptTag(last)] else [])
  }

  function LinkTags(hrefs: seq<string>): seq<string> {
    if hrefs == [] then []
    else
      var last := hrefs[|hrefs| - 1];
      LinkTags(hrefs[..|hrefs| - 1]) + (if KeepLink(last) then [LinkTag(last)] else [])
  }

  /** `[...new Set(a)]`: each value once, in order of first occurrence. */
  function Dedupe(a: seq<string>): seq<string> {
    if a == [] then []
    else
      var d := Dedupe(a[..|a| - 1]);
      if a[|a| - 1] in d then d else d + [a[|a| - 1]]
  }

  /** `a.join(sep)` */
  function Join(a: seq<string>, sep: string): string {
    if a == [] then "" else if |a| == 1 then a[0] else a[0] + sep + Join(a[1..], sep)
  }

  /** The separator between emitted tags. */
  const TagSeparator := "\n    "

  /** The root element the client application mounts on. */
  const NuxtRoot := "id=\"__nuxt\""

  const PageHead := "<!DOCTYPE html>\n<html lang=\"zh-CN\">\n<head>\n  <meta charset=\"utf-8\">\n"
    + "  <meta name=\"viewport\" content=\"width=device-width, initial-scale=1\">\n"
    + "  <title>加载中…</title>\n"

  const BodyOpen := "</head>\n<body>\n  <div "

  const LoadingBody := "><div style=\"padding:2rem;text-align:center;font-family:system-ui,sans-serif;\">"
    + "正在加载…</div></div>\n  "

  const PageClose := "\n</body>\n</html>"

  /** The shell page around the joined stylesheet and script tags. */
  function FallbackPage(linkTags: string, scriptTags: string): string {
    PageHead + "  " + linkTags + "\n" + BodyOpen + NuxtRoot + LoadingBody + scriptTags + PageClose
  }

  /** The page `buildCsrFallbackHtml` returns for the captured values. */
  function FallbackHtml(c: Captures): string {
    FallbackPage(Join(Dedupe(LinkTags(c.linkHrefs)), TagSeparator),
                 Join(Dedupe(ScriptTags(c.scriptSrcs)), TagSeparator))
  }

  /** `buildCsrFallbackHtml(existingHtml)`, with the two scans given as `c`. */
  method BuildCsrFallbackHtml(c: Captures) returns (html: string)
    ensures html == FallbackHtml(c)
  {
    var scripts: seq<string> := [];
    var links: seq<string> := [];
    var i := 0;
    while i < |c.scriptSrcs|
      invariant 0 <= i <= |c.scriptSrcs|
      invariant scripts == ScriptTags(c.scriptSrcs[..i])
    {
      var src := c.scriptSrcs[i];
      assert c.scriptSrcs[..i + 1][..i] == c.scriptSrcs[..i];
      i := i + 1;
      if !Contains(src, "_nuxt") && !Contains(src, "__nuxt") {
        continue;
      }
      scripts := scripts + [ScriptTag(src)];
    }
    assert c.scriptSrcs[..i] == c.scriptSrcs;
    var j := 0;
    while j < |c.linkHrefs|
      invariant 0 <= j <= |c.linkHrefs|
      invariant links == LinkTags(c.linkHrefs[..j])
    {
      var href := c.linkHrefs[j];
      assert c.linkHrefs[..j + 1][..j] == c.linkHrefs[..j];
      if Contains(href, "_nuxt") || Contains(href, "__nuxt") || EndsWith(href, ".css") {
        links := links + [LinkTag(href)];
      }
      j := j + 1;
    }
    assert c.linkHrefs[..j] == c.linkHrefs;
    var scriptTags := Join(Dedupe(scripts), TagSeparator);
    var linkTags := Join(Dedupe(links), TagSeparator);
    html := FallbackPage(linkTags, scriptTags);
  }

  /** `__nuxt` contains `_nuxt`, so the script filter amounts to "mentions `_nuxt`". */
  lemma KeepScriptMeansNuxt(src: string)
    ensures KeepScript(src) <==> Contains(src, "_nuxt")
  {
    if Contains(src, "__nuxt") {
      assert OccursAt("__nuxt", "_nuxt", 1);
      ContainsTransitive(src, "__nuxt", "_nuxt");
    }
  }

  /** Every emitted script tag loads a captured URL mentioning `_nuxt`, and every
      captured URL mentioning `_nuxt` is emitted. */
  lemma {:induction false} ScriptTagsAreNuxt(srcs: seq<string>)
    ensures forall t :: t in ScriptTags(srcs) ==>
              exists src :: src in srcs && Contains(src, "_nuxt") && t == ScriptTag(src)
    ensures forall src :: src in srcs && Contains(src, "_nuxt") ==> ScriptTag(src) in ScriptTags(srcs)
  {
    if srcs != [] {
      var init, last := srcs[..|srcs| - 1], srcs[|srcs| - 1];
      assert srcs == init + [last];
      ScriptTagsAreNuxt(init);
      KeepScriptMeansNuxt(last);
      forall src | src in srcs && Contains(src, "_nuxt") ensures ScriptTag(src) in ScriptTags(srcs) {
        KeepScriptMeansNuxt(src);
      }
    }
  }

  /** Every emitted stylesheet tag links a captured URL under `_nuxt` or ending
      in `.css`, and every such captured URL is emitted. */
  lemma {:induction false} LinkTagsAreNuxtOrCss(hrefs: seq<string>)
    ensures forall t :: t in LinkTags(hrefs) ==>
              exists href :: href in hrefs && (Contains(href, "_nuxt") || EndsWith(href, ".css"))
                             && t == LinkTag(href)
    ensures forall href :: href in hrefs && (Contains(href, "_nuxt") || EndsWith(href, ".css")) ==>
              LinkTag(href) in LinkTags(hrefs)
  {
    if hrefs != [] {
      var init, last := hrefs[..|hrefs| - 1], hrefs[|hrefs| - 1];
      assert hrefs == init + [last];
      LinkTagsAreNuxtOrCss(init);
      KeepScriptMeansNuxt(last);
      forall href | href in hrefs && (Contains(href, "_nuxt") || EndsWith(href, ".css"))
        ensures LinkTag(href) in LinkTags(hrefs)
      {
        KeepScriptMeansNuxt(href);
      }
    }
  }

  /** No value occurs twice. */
  predicate NoDuplicates(a: seq<string>) {
    forall i, j :: 0 <= i < j < |a| ==> a[i] != a[j]
  }

  /** `s` is `t` with some elements left out, in the same order. */
  predicate IsSubsequence(s: seq<string>, t: seq<string>)
    decreases |t|
  {
    if s == [] then true
    else if t == [] then false
    else if s[|s| - 1] == t[|t| - 1] then IsSubsequence(s[..|s| - 1], t[..|t| - 1])
    else IsSubsequence(s, t[..|t| - 1])
  }

  lemma {:induction false} SubsequenceOfLonger(s: seq<string>, t: seq<string>, x: string)
    requires IsSubsequence(s, t)
    ensures IsSubsequence(s, t + [x])
    decreases |t|, 1
  {
    var tx := t + [x];
    assert tx[..|tx| - 1] == t;
    if s != [] && s[|s| - 1] == x {
      SubsequenceDropLast(s, t);
    }
  }

  lemma {:induction false} SubsequenceDropLast(s: seq<string>, t: seq<string>)
    requires s != [] && IsSubsequence(s, t)
    ensures IsSubsequence(s[..|s| - 1], t)
    decreases |t|, 0
  {
    var sl, tl, y := s[..|s| - 1], t[..|t| - 1], t[|t| - 1];
    assert t == tl + [y];
    if s[|s| - 1] == y {
      SubsequenceOfLonger(sl, tl, y);
    } else {
      SubsequenceDropLast(s, tl);
      SubsequenceOfLonger(sl, tl, y);
    }
  }

  /** Whenever `d` lists `y` after `x`, `x` occurs in `a` before every occurrence of `y`:
      `d` lists the values of `a` in order of first occurrence. */
  predicate InFirstOccurrenceOrder(d: seq<string>, a: seq<string>) {
    forall i, j, k :: 0 <= i < j < |d| && 0 <= k < |a| && a[k] == d[j] ==> d[i] in a[..k]
  }

  /** `Dedupe` keeps exactly the values of its input, each once, as a subsequence
      of the input, in order of first occurrence. */
  lemma {:induction false} DedupeProperties(a: seq<string>)
    ensures forall x :: x in Dedupe(a) <==> x in a
    ensures NoDuplicates(Dedupe(a))
    ensures IsSubsequence(Dedupe(a), a)
    ensures InFirstOccurrenceOrder(Dedupe(a), a)
    decreases |a|, 1
  {
    if a != [] {
      var init, last := a[..|a| - 1], a[|a| - 1];
      assert a == init + [last];
      DedupeProperties(init);
      var d := Dedupe(init);
      if last in d {
        SubsequenceOfLonger(d, init, last);
      } else {
        var dx := d + [last];
        assert dx[..|dx| - 1] == d;
      }
    }
    DedupeInOrder(a);
  }

  /** The order part of `DedupeProperties`, on the same induction. */
  lemma {:induction false} DedupeInOrder(a: seq<string>)
    ensures InFirstOccurrenceOrder(Dedupe(a), a)
    decreases |a|, 0
  {
    if a != [] {
      var init, last := a[..|a| - 1], a[|a| - 1];
      assert a == init + [last];
      assert a[..|init|] == init;
      DedupeProperties(init);
      var d := Dedupe(init);
      var r := Dedupe(a);
      forall i, j, k | 0 <= i < j < |r| && 0 <= k < |a| && a[k] == r[j] ensures r[i] in a[..k] {
        if k < |init| {
          assert a[..k] == init[..k];
          if j < |d| {
            assert r[i] == d[i] && r[j] == d[j];
          }
        } else {
          assert r[i] == d[i] && d[i] in d;
        }
      }
    }
  }

  /** The shell page always contains the root element, so the hook's final guard always passes. */
  lemma FallbackHasNuxtRoot(c: Captures)
    ensures Contains(FallbackHtml(c), NuxtRoot)
    ensures Contains(FallbackHtml(c), "_nuxt")
  {
    var links := Join(Dedupe(LinkTags(c.linkHrefs)), TagSeparator);
    var scripts := Join(Dedupe(ScriptTags(c.scriptSrcs)), TagSeparator);
    var before := PageHead + "  " + links + "\n" + BodyOpen;
    ContainsEnd(before, NuxtRoot);
    ContainsExtend(before + NuxtRoot, NuxtRoot, LoadingBody);
    ContainsExtend(before + NuxtRoot + LoadingBody, NuxtRoot, scripts);
    ContainsExtend(before + NuxtRoot + LoadingBody + scripts, NuxtRoot, PageClose);
    assert OccursAt(NuxtRoot, "_nuxt", 5);
    ContainsTransitive(FallbackHtml(c), NuxtRoot, "_nuxt");
  }

  // ---------------------------------------------------------------------
  // buildMinimalCsrHtml

  function EntryPath(isDev: bool): string {
    if isDev then "/_nuxt/entry.mjs" else "/_nuxt/entry.js"
  }

  const MinimalScriptHead := "<script>\n(function(){\n  var s = document.createElement('script');\n  s.src = '"

  const MinimalScriptTail := "';\n  s.type = 'module';\n  s.defer = true;\n  document.body.appendChild(s);\n})();\n  </script>"

  /** The shell page with a script that loads the given entry. */
  function MinimalPage(entry: string): string {
    PageHead + BodyOpen + NuxtRoot + LoadingBody + MinimalScriptHead + entry + MinimalScriptTail + PageClose
  }

  /** `buildMinimalCsrHtml(isDev)`: the shell page whose script loads the
      development (`.mjs`) or production (`.js`) entry. */
  function BuildMinimalCsrHtml(isDev: bool): string {
    MinimalPage(EntryPath(isDev))
  }

  /** Both minimal pages carry the root element and load the entry `isDev` selects. */
  lemma MinimalPageContents(isDev: bool)
    ensures Contains(BuildMinimalCsrHtml(isDev), NuxtRoot)
    ensures Contains(BuildMinimalCsrHtml(isDev), EntryPath(isDev))
    ensures isDev ==> EntryPath(isDev) == "/_nuxt/entry.mjs"
    ensures !isDev ==> EntryPath(isDev) == "/_nuxt/entry.js"
  {
    var e := EntryPath(isDev);
    ContainsEnd(PageHead + BodyOpen, NuxtRoot);
    ContainsExtend(PageHead + BodyOpen + NuxtRoot, NuxtRoot, LoadingBody);
    ContainsExtend(PageHead + BodyOpen + NuxtRoot + LoadingBody, NuxtRoot, MinimalScriptHead);
    ContainsExtend(PageHead + BodyOpen + NuxtRoot + LoadingBody + MinimalScriptHead, NuxtRoot, e);
    var withEntry := PageHead + BodyOpen + NuxtRoot + LoadingBody + MinimalScriptHead + e;
    ContainsExtend(withEntry, NuxtRoot, MinimalScriptTail);
    ContainsExtend(withEntry + MinimalScriptTail, NuxtRoot, PageClose);
    ContainsEnd(PageHead + BodyOpen + NuxtRoot + LoadingBody + MinimalScriptHead, e);
    ContainsExtend(withEntry, e, MinimalScriptTail);
    ContainsExtend(withEntry + MinimalScriptTail, e, PageClose);
  }

  // ---------------------------------------------------------------------
  // The beforeResponse hook

  /** `context.body`: absent, a string, or a buffer (given by the text `String(buffer)` yields). */
  datatype Body = NoBody | Text(text: string) | Buffer(decoded: string)

  /** The string the hook inspects. */
  function BodyText(b: Body): string {
    match b
    case NoBody => ""
    case Text(s) => s
    case Buffer(s) => s
  }

  /** The failed page carries the application root, with either quote style. */
  predicate HasNuxtRoot(html: string) {
    Contains(html, NuxtRoot) || Contains(html, "id='__nuxt'")
  }

  /** When the hook replaces the response. */
  predicate RewriteApplies(path: string, accept: string, status: int, body: Body) {
    && IsDocumentRequest(path, accept) && status == 500
    && BodyText(body) != "" && HasNuxtRoot(BodyText(body))
  }

  /** The part of a response the hook reads and writes. */
  class Response {
    var status: int
    /** The `X-Render-Mode` header, when set. */
    var renderMode: Option<string>
    var body: Body

    constructor (status: int, body: Body)
      ensures this.status == status && this.body == body && renderMode == None
    {
      this.status := status;
      this.body := body;
      renderMode := None;
    }

    /** The `beforeResponse` hook for a request with this path and Accept header;
        `scan` stands for the two regular-expression scans of a page. */
    method BeforeResponse(path: string, accept: string, scan: string -> Captures)
      modifies this
      ensures RewriteApplies(path, accept, old(status), old(body)) ==>
                && status == 200 && renderMode == Some("csr-fallback")
                && body == Text(FallbackHtml(scan(BodyText(old(body)))))
      ensures !RewriteApplies(path, accept, old(status), old(body)) ==>
                status == old(status) && renderMode == old(renderMode) && body == old(body)
    {
      if !IsDocumentRequest(path, accept) {
        return;
      }
      if status != 500 {
        return;
      }
      var html := BodyText(body);
      if html == "" || (!Contains(html, NuxtRoot) && !Contains(html, "id='__nuxt'")) {
        return;
      }
      var fallback := BuildCsrFallbackHtml(scan(html));
      FallbackHasNuxtRoot(scan(html));
      if Contains(fallback, "_nuxt") || Contains(fallback, "__nuxt") {
        status := 200;
        renderMode := Some("csr-fallback");
        body := Text(fallback);
      }
    }
  }
}
