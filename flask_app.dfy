/** flask_app.py: the extension gate, the loader dispatch, the cache of FAISS indexes
    keyed by document-set fingerprints, the builds from files and from URLs, the startup
    preload, and the choice of retriever for a request. */
module FlaskApp {
  import opened Text
  import opened Fingerprints
  import opened Http

  const UploadFolder := "data"
  const FaissDir := "faiss_indexes"
  const AllowedExtensions: set<string> := {"pdf", "docx", "doc", "pptx", "ppt", "xlsx", "xls", "txt"}
  /** Every retriever returns the 5 nearest chunks. */
  const RetrieverK := 5

  // ---------------------------------------------------------------------------------
  // Names and paths

  /** The text after the last `sep`, or all of `s` when `sep` does not occur: `s.rsplit(sep, 1)[-1]`,
      `s.split(sep)[-1]`, and for `sep == '/'` the POSIX `os.path.basename`. */
  function AfterLast(s: string, sep: char): string
    decreases |s|
  {
    if s == [] || s[|s| - 1] == sep then [] else AfterLast(s[..|s| - 1], sep) + [s[|s| - 1]]
  }

  /** The text after the last `sep` is a suffix that holds no `sep`, and when it is not
      all of `s` a `sep` comes just before it. */
  lemma {:induction false} AfterLastShape(s: string, sep: char)
    ensures var r := AfterLast(s, sep);
      && |r| <= |s| && r == s[|s| - |r|..]
      && sep !in r
      && (|r| < |s| ==> s[|s| - |r| - 1] == sep)
    decreases |s|
  {
    if s != [] && s[|s| - 1] != sep {
      var init, last := s[..|s| - 1], s[|s| - 1];
      AfterLastShape(init, sep);
      var r0 := AfterLast(init, sep);
      var r := r0 + [last];
      assert AfterLast(s, sep) == r;
      SuffixGrows(s, |init| - |r0|, r0);
      if |r| < |s| {
        assert s[|s| - |r| - 1] == init[|init| - |r0| - 1];
      }
    }
  }

  /** A suffix of all but the last character, followed by the last character, is a
      suffix of the whole. */
  lemma {:induction false} SuffixGrows(s: string, k: nat, u: string)
    requires s != [] && k <= |s| - 1 && u == s[..|s| - 1][k..]
    ensures u + [s[|s| - 1]] == s[k..]
  {
    var w := u + [s[|s| - 1]];
    assert |w| == |s| - k;
    forall j | 0 <= j < |w| ensures w[j] == s[k + j] {
      if j < |u| {
        assert u[j] == s[k + j];
      }
    }
  }

  /** The suffix after the last `sep` is the only suffix that follows a `sep` and holds none. */
  lemma {:induction false} AfterLastUnique(s: string, sep: char, i: nat)
    requires i < |s| && s[i] == sep && sep !in s[i + 1..]
    ensures AfterLast(s, sep) == s[i + 1..]
  {
    var r := AfterLast(s, sep);
    AfterLastShape(s, sep);
    if |r| == |s| || |s| - |r| - 1 != i {
      assert false;
    }
  }

  /** Lower-casing keeps every `.` where it is, so it commutes with taking the extension. */
  lemma {:induction false} AfterLastDotLower(s: string)
    ensures AfterLast(LowerStr(s), '.') == LowerStr(AfterLast(s, '.'))
    decreases |s|
  {
    if s != [] && s[|s| - 1] != '.' {
      var init := s[..|s| - 1];
      LowerStrPrefix(s, |s| - 1);
      AfterLastDotLower(init);
      LowerStrAppend(AfterLast(init, '.'), [s[|s| - 1]]);
    }
  }

  /** `os.path.join(folder, name)` for a folder without a trailing slash. */
  function PathJoin(folder: string, name: string): (r: string)
    ensures name != [] && name[0] == '/' ==> r == name
    ensures (name == [] || name[0] != '/') ==> r == folder + "/" + name
  {
    if name != [] && name[0] == '/' then name else folder + "/" + name
  }

  /** The directory an index with fingerprint `key` is saved to and loaded from. */
  function IndexDir(key: string): string {
    PathJoin(FaissDir, key)
  }

  // ---------------------------------------------------------------------------------
  // allowed_file and get_document_loader

  /** `allowed_file`: the name holds a `.` and the lower-cased text after the last `.` is
      an allowed extension. */
  predicate AllowedFile(filename: string) {
    '.' in filename && LowerStr(AfterLast(filename, '.')) in AllowedExtensions
  }

  /** `allowed_file` stated without the helper: some `.` is followed by no other `.` and
      by an allowed extension. */
  lemma {:induction false} AllowedFileMeans(filename: string)
    ensures AllowedFile(filename) <==>
              exists i :: 0 <= i < |filename| && filename[i] == '.' && '.' !in filename[i + 1..]
                       && LowerStr(filename[i + 1..]) in AllowedExtensions
  {
    var r := AfterLast(filename, '.');
    AfterLastShape(filename, '.');
    if AllowedFile(filename) {
      if |r| == |filename| {
        assert false;
      }
      var i := |filename| - |r| - 1;
      assert filename[i + 1..] == r;
    }
    if exists i :: 0 <= i < |filename| && filename[i] == '.' && '.' !in filename[i + 1..]
                && LowerStr(filename[i + 1..]) in AllowedExtensions {
      var i :| 0 <= i < |filename| && filename[i] == '.' && '.' !in filename[i + 1..]
             && LowerStr(filename[i + 1..]) in AllowedExtensions;
      AfterLastUnique(filename, '.', i);
    }
  }

  datatype Loader = PyPdfLoader | Docx2txtLoader | PowerPointLoader | ExcelLoader

  /** `get_document_loader`: chosen by the lower-cased text after the last `.`; anything
      else, a `.txt` file or a name without a `.` included, goes to the PDF loader. */
  function LoaderFor(path: string): Loader {
    var ext := AfterLast(LowerStr(path), '.');
    if ext == "pdf" then PyPdfLoader
    else if ext in {"docx", "doc"} then Docx2txtLoader
    else if ext in {"pptx", "ppt"} then PowerPointLoader
    else if ext in {"xlsx", "xls"} then ExcelLoader
    else PyPdfLoader
  }

  /** Word, PowerPoint and Excel loaders go exactly to their extensions; every other
      extension goes to the PDF loader. */
  lemma {:induction false} LoaderForMeans(path: string)
    ensures var ext := AfterLast(LowerStr(path), '.'); var r := LoaderFor(path);
      && (r == Docx2txtLoader <==> ext in {"docx", "doc"})
      && (r == PowerPointLoader <==> ext in {"pptx", "ppt"})
      && (r == ExcelLoader <==> ext in {"xlsx", "xls"})
  {
  }

  /** For a name the gate lets through, the gate and the dispatch read the same
      extension: Word, PowerPoint and Excel names get their loaders, and the PDF loader
      takes `pdf` and `txt` alike. */
  lemma {:induction false} AllowedFileLoader(filename: string)
    requires AllowedFile(filename)
    ensures var ext := LowerStr(AfterLast(filename, '.'));
      LoaderFor(filename) == (if ext in {"docx", "doc"} then Docx2txtLoader
                              else if ext in {"pptx", "ppt"} then PowerPointLoader
                              else if ext in {"xlsx", "xls"} then ExcelLoader
                              else PyPdfLoader)
    ensures LowerStr(AfterLast(filename, '.')) == "txt" ==> LoaderFor(filename) == PyPdfLoader
  {
    AfterLastDotLower(filename);
  }

  // ---------------------------------------------------------------------------------
  // Collaborators

  /** One page of a loaded document. */
  type Page = string

  /** A vector store: built in memory from the loaded pages, loaded from a saved index
      directory, or the persistent Pinecone index. */
  datatype Store = Built(pages: seq<Page>) | Loaded(dir: string) | Pinecone(indexName: string)

  datatype Retriever = Retriever(store: Store, k: nat)

  /** What the code calls but does not compute; each is a parameter of the model.
      `load(loader, path)` is what `loader.load()` returns, `None` when the loader raises;
      `loadsIndex(dir)` says whether `FAISS.load_local(dir)` succeeds. */
  datatype Services = Services(
    sha256: string -> string,
    md5: string -> string,
    urlPath: string -> string,
    secureFilename: string -> string,
    load: (Loader, string) -> Option<seq<Page>>,
    loadsIndex: string -> bool,
    pineconeUp: bool,
    pineconeIndex: string)

  // ---------------------------------------------------------------------------------
  // What the builds compute

  /** The pages `get_document_loader(path).load()` adds: none when the loader raises. */
  function PagesOf(svc: Services, path: string): seq<Page> {
    svc.load(LoaderFor(path), path).GetOr([])
  }

  /** `PagesOf` as a value, so that what is proved of gathering pages holds for any way
      of reading a file. */
  function Reader(svc: Services): string -> seq<Page> {
    path => PagesOf(svc, path)
  }

  /** `all_docs` after the loop of `build_faiss_for_files`: the pages `read` gives for
      each file, in order (with `Reader(svc)`, the pages of every file whose loader does
      not raise). */
  function LoadedPages(read: string -> seq<Page>, paths: seq<string>): (r: seq<Page>)
    decreases |paths|
  {
    if paths == [] then [] else read(paths[0]) + LoadedPages(read, paths[1..])
  }

  /** The pages of the files from index `i` on, as the loading loop still has them to
      gather. */
  function PagesFrom(read: string -> seq<Page>, paths: seq<string>, i: nat): seq<Page>
    requires i <= |paths|
    decreases |paths| - i
  {
    if i == |paths| then [] else read(paths[i]) + PagesFrom(read, paths, i + 1)
  }

  lemma {:induction false} PagesFromLoaded(read: string -> seq<Page>, paths: seq<string>, i: nat)
    requires i <= |paths|
    ensures PagesFrom(read, paths, i) == LoadedPages(read, paths[i..])
    decreases |paths| - i
  {
    if i < |paths| {
      PagesFromLoaded(read, paths, i + 1);
      assert paths[i..][0] == paths[i] && paths[i..][1..] == paths[i + 1..];
    }
  }

  lemma {:induction false} PagesFromStart(read: string -> seq<Page>, paths: seq<string>)
    ensures PagesFrom(read, paths, 0) == LoadedPages(read, paths)
  {
    PagesFromLoaded(read, paths, 0);
    assert paths[0..] == paths;
  }

  /** Loading two lists of files one after the other gathers the pages of the first list
      and then those of the second. */
  lemma {:induction false} LoadedPagesAppend(read: string -> seq<Page>, a: seq<string>, b: seq<string>)
    ensures LoadedPages(read, a + b) == LoadedPages(read, a) + LoadedPages(read, b)
    decreases |a|
  {
    if a == [] {
      assert a + b == b;
    } else {
      assert (a + b)[0] == a[0] && (a + b)[1..] == a[1..] + b;
      LoadedPagesAppend(read, a[1..], b);
    }
  }

  /** The build of a file set finds no page exactly when every file fails to load or
      loads no page. */
  lemma {:induction false} LoadedPagesEmpty(read: string -> seq<Page>, paths: seq<string>)
    ensures LoadedPages(read, paths) == [] <==> forall i :: 0 <= i < |paths| ==> read(paths[i]) == []
    decreases |paths|
  {
    if paths != [] {
      var rest := paths[1..];
      LoadedPagesEmpty(read, rest);
      if LoadedPages(read, paths) == [] {
        forall i | 0 <= i < |paths| ensures read(paths[i]) == [] {
          if i > 0 { assert rest[i - 1] == paths[i]; }
        }
      } else if read(paths[0]) == [] {
        var i :| 0 <= i < |rest| && read(rest[i]) != [];
        assert rest[i] == paths[i + 1];
      }
    }
  }

  /** A file that fails to load (or loads no page) adds nothing, wherever it is in the
      list, and does not stop the files after it. */
  lemma {:induction false} LoadedPagesSkipsFailure(read: string -> seq<Page>, before: seq<string>, failed: string, after: seq<string>)
    requires read(failed) == []
    ensures LoadedPages(read, before + [failed] + after) == LoadedPages(read, before + after)
  {
    var x := before + [failed];
    LoadedPagesAppend(read, x, after);
    LoadedPagesAppend(read, before, [failed]);
    assert LoadedPages(read, [failed]) == [] by {
      assert [failed][1..] == [];
    }
    LoadedPagesAppend(read, before, after);
  }

  /** The outcome of a build: nothing to index, an index found in the cache under `key`,
      or a new index built and saved under `key`. */
  datatype Build = Nothing | Found(store: Store, key: string) | Fresh(store: Store, key: string)

  /** `build_faiss_for_files`: `(None, None)` when no page loads; otherwise a new index,
      keyed by the fingerprint of all the paths given, failed ones included. */
  function FilesBuild(svc: Services, paths: seq<string>): (b: Build)
    ensures b.Nothing? <==> LoadedPages(Reader(svc), paths) == []
    ensures b.Fresh? ==> b.key == Fingerprint(svc.sha256, paths)
    ensures !b.Found?
  {
    var pages := LoadedPages(Reader(svc), paths);
    if pages == [] then Nothing else Fresh(Built(pages), Fingerprint(svc.sha256, paths))
  }

  /** The filename a downloaded link is saved under: the last segment of its URL path,
      or `file_<md5 of the link>.dat` when that is empty. */
  function DownloadName(svc: Services, link: string): (r: string)
    ensures r != []
    ensures var base := AfterLast(svc.urlPath(link), '/');
      r == base || (base == [] && r == "file_" + svc.md5(link) + ".dat")
  {
    var base := AfterLast(svc.urlPath(link), '/');
    if base != "" then base else "file_" + svc.md5(link) + ".dat"
  }

  function SavePath(svc: Services, link: string): string {
    PathJoin(UploadFolder, DownloadName(svc, link))
  }

  /** A reply that leads to a saved file: a response with status 200. */
  predicate Saves(f: Fetch) {
    f.Response? && f.status == 200
  }

  /** The save-path rule as a function value. */
  function Saver(svc: Services): string -> string {
    link => SavePath(svc, link)
  }

  /** What one link adds to `saved_files` when it is the `n`-th request. */
  function Contribution(respond: (string, nat) -> Fetch, savePath: string -> string, link: string, n: nat): seq<string> {
    if Saves(respond(link, n)) then [savePath(link)] else []
  }

  /** `saved_files` after the download loop, when the first link is the `n`-th request:
      the save path of every link whose reply is a 200 response, in order. */
  function Downloaded(respond: (string, nat) -> Fetch, savePath: string -> string, links: seq<string>, n: nat): (r: seq<string>)
    ensures |r| <= |links|
    decreases |links|
  {
    if links == [] then []
    else
      var i := |links| - 1;
      Downloaded(respond, savePath, links[..i], n) + Contribution(respond, savePath, links[i], n + i)
  }

  /** A link that fails or answers with another status adds no file and does not stop the
      links after it. */
  lemma {:induction false} DownloadedFront(respond: (string, nat) -> Fetch, savePath: string -> string, head: string,
                                           rest: seq<string>, n: nat)
    ensures Downloaded(respond, savePath, [head] + rest, n)
         == Contribution(respond, savePath, head, n) + Downloaded(respond, savePath, rest, n + 1)
    decreases |rest|
  {
    var all := [head] + rest;
    if rest == [] {
      assert all[..0] == [];
    } else {
      var init := rest[..|rest| - 1];
      assert all[..|all| - 1] == [head] + init;
      assert all[|all| - 1] == rest[|rest| - 1];
      DownloadedFront(respond, savePath, head, init, n);
    }
  }

  /** The saved files are exactly the save paths of the links answered with status 200. */
  lemma {:induction false} DownloadedMeans(respond: (string, nat) -> Fetch, savePath: string -> string, links: seq<string>,
                                           n: nat, path: string)
    ensures path in Downloaded(respond, savePath, links, n) <==>
              exists i :: 0 <= i < |links| && Saves(respond(links[i], n + i)) && path == savePath(links[i])
    decreases |links|
  {
    if links != [] {
      var init := links[..|links| - 1];
      DownloadedMeans(respond, savePath, init, n, path);
      assert forall i :: 0 <= i < |init| ==> init[i] == links[i];
    }
  }

  /** The cache after a build: a new index is reloaded from its directory and stored under
      its key; nothing else changes. */
  function Commit(cache: map<string, Store>, b: Build): (r: map<string, Store>)
    ensures r.Keys == cache.Keys + (if b.Fresh? then {b.key} else {})
    ensures forall k :: k in cache && !(b.Fresh? && k == b.key) ==> r[k] == cache[k]
    ensures b.Fresh? ==> r[b.key] == Loaded(IndexDir(b.key))
  {
    if b.Fresh? then cache[b.key := Loaded(IndexDir(b.key))] else cache
  }

  /** `build_faiss_for_urls` as a function of the cache and the network: the cache is
      looked up under the fingerprint of the URLs; on a miss every link is requested,
      and the files saved, if any, are built as `build_faiss_for_files` builds them. */
  function UrlsBuild(cache: map<string, Store>, svc: Services, respond: (string, nat) -> Fetch, n: nat,
                     urls: seq<string>): (b: Build)
    ensures b.Found? <==> Fingerprint(svc.sha256, urls) in cache
    ensures b.Found? ==> b.key == Fingerprint(svc.sha256, urls) && b.store == cache[b.key]
    ensures b.Nothing? <==> !b.Found? && LoadedPages(Reader(svc), Downloaded(respond, Saver(svc), urls, n)) == []
    ensures b.Fresh? ==> b.key == Fingerprint(svc.sha256, Downloaded(respond, Saver(svc), urls, n))
  {
    var key := Fingerprint(svc.sha256, urls);
    if key in cache then Found(cache[key], key)
    else
      var saved := Downloaded(respond, Saver(svc), urls, n);
      if saved == [] then Nothing else FilesBuild(svc, saved)
  }

  /** An index built from URLs is stored under the fingerprint of the saved file paths,
      while the lookup uses the fingerprint of the URLs: the same URLs find it again only
      when the two fingerprints coincide. */
  lemma {:induction false} UrlBuildKeyedBySavedFiles(cache: map<string, Store>, svc: Services, respond: (string, nat) -> Fetch,
                                  n: nat, urls: seq<string>, respond': (string, nat) -> Fetch, n': nat)
    requires UrlsBuild(cache, svc, respond, n, urls).Fresh?
    ensures var saved := Downloaded(respond, Saver(svc), urls, n);
      (UrlsBuild(Commit(cache, UrlsBuild(cache, svc, respond, n, urls)), svc, respond', n', urls).Found?
       <==> Fingerprint(svc.sha256, urls) == Fingerprint(svc.sha256, saved))
  {
  }

  /** Requesting one URL twice builds it twice: the first build is stored under the
      digest of its save path, which the second lookup, made with the digest of the URL,
      does not find whenever the digest tells the two apart. */
  lemma {:induction false} UrlIndexNotFoundAgain(cache: map<string, Store>, svc: Services, respond: (string, nat) -> Fetch, n: nat,
                              respond': (string, nat) -> Fetch, n': nat, url: string)
    requires svc.sha256(url) !in cache
    requires Saves(respond(url, n)) && PagesOf(svc, SavePath(svc, url)) != []
    requires svc.sha256(url) != svc.sha256(SavePath(svc, url))
    ensures var first := UrlsBuild(cache, svc, respond, n, [url]);
      && first == Fresh(Built(PagesOf(svc, SavePath(svc, url))), svc.sha256(SavePath(svc, url)))
      && !UrlsBuild(Commit(cache, first), svc, respond', n', [url]).Found?
  {
    FingerprintOfOne(svc.sha256, url);
    var saved := Downloaded(respond, Saver(svc), [url], n);
    assert [url][..0] == [];
    assert saved == [SavePath(svc, url)];
    FingerprintOfOne(svc.sha256, SavePath(svc, url));
    assert [SavePath(svc, url)][..0] == [];
    assert LoadedPages(Reader(svc), saved) == PagesOf(svc, SavePath(svc, url));
  }

  /** Every download is saved under `data/`, so a URL is never its own save path unless
      it is itself a path under `data/`. */
  lemma {:induction false} SavePathUnderUploads(svc: Services, link: string)
    ensures |SavePath(svc, link)| > 5 && SavePath(svc, link)[..5] == "data/"
  {
    var name := DownloadName(svc, link);
    var base := AfterLast(svc.urlPath(link), '/');
    AfterLastShape(svc.urlPath(link), '/');
    if name == base {
      assert name[0] in base;
    }
    assert name[0] != '/';
  }

  /** `preload_faiss` over the directory listing `names`: each index that loads is stored
      under its directory name, one after the other. */
  function Preloaded(svc: Services, cache: map<string, Store>, names: seq<string>): map<string, Store>
    decreases |names|
  {
    if names == [] then cache
    else
      var before := Preloaded(svc, cache, names[..|names| - 1]);
      var name := names[|names| - 1];
      if svc.loadsIndex(IndexDir(name)) then before[name := Loaded(IndexDir(name))] else before
  }

  /** Each name is handled on its own: it is present afterwards exactly when it was
      before or its index loads, and a failed load affects no other name. */
  lemma {:induction false} PreloadedMeans(svc: Services, cache: map<string, Store>, names: seq<string>, name: string)
    ensures name in Preloaded(svc, cache, names) <==>
              name in cache || (name in names && svc.loadsIndex(IndexDir(name)))
    ensures name in names && svc.loadsIndex(IndexDir(name)) ==>
              Preloaded(svc, cache, names)[name] == Loaded(IndexDir(name))
    ensures name in cache && !(name in names && svc.loadsIndex(IndexDir(name))) ==>
              Preloaded(svc, cache, names)[name] == cache[name]
    decreases |names|
  {
    if names != [] {
      var init := names[..|names| - 1];
      PreloadedMeans(svc, cache, init, name);
      assert names == init + [names[|names| - 1]];
    }
  }

  /** The one way a URL finds an index: a preloaded directory named by the digest of that
      single URL. */
  lemma {:induction false} PreloadedSingleUrlHit(svc: Services, cache: map<string, Store>, names: seq<string>,
                              respond: (string, nat) -> Fetch, n: nat, url: string)
    requires svc.sha256(url) in names && svc.loadsIndex(IndexDir(svc.sha256(url)))
    ensures UrlsBuild(Preloaded(svc, cache, names), svc, respond, n, [url])
         == Found(Loaded(IndexDir(svc.sha256(url))), svc.sha256(url))
  {
    FingerprintOfOne(svc.sha256, url);
    PreloadedMeans(svc, cache, names, svc.sha256(url));
  }

  // ---------------------------------------------------------------------------------
  // Choosing the retriever

  /** The list comprehension over `document_links`: every line stripped, blank ones dropped. */
  function NonBlankLines(lines: seq<string>): (r: seq<string>)
    ensures forall k :: 0 <= k < |r| ==> r[k] != [] && IsStripped(r[k])
  {
    if lines == [] then []
    else
      var t := Strip(lines[0]);
      (if t != [] then [t] else []) + NonBlankLines(lines[1..])
  }

  /** A link is kept exactly when it is the non-empty strip of some line. */
  lemma {:induction false} NonBlankLinesMembers(lines: seq<string>, x: string)
    ensures x in NonBlankLines(lines) <==> x != [] && exists k :: 0 <= k < |lines| && Strip(lines[k]) == x
  {
    if lines != [] {
      var rest := lines[1..];
      NonBlankLinesMembers(rest, x);
      if exists k :: 0 <= k < |lines| && Strip(lines[k]) == x {
        var k :| 0 <= k < |lines| && Strip(lines[k]) == x;
        if k > 0 { assert rest[k - 1] == lines[k]; }
      }
      if exists k :: 0 <= k < |rest| && Strip(rest[k]) == x {
        var k :| 0 <= k < |rest| && Strip(rest[k]) == x;
        assert lines[k + 1] == rest[k];
      }
    }
  }

  /** Stripping keeps a line one line, so links cut from single lines are single lines. */
  lemma {:induction false} NonBlankLinesSingle(lines: seq<string>)
    requires forall k :: 0 <= k < |lines| ==> SingleLine(lines[k])
    ensures forall k :: 0 <= k < |NonBlankLines(lines)| ==> SingleLine(NonBlankLines(lines)[k])
  {
    if lines != [] {
      var rest := lines[1..];
      assert forall k :: 0 <= k < |rest| ==> rest[k] == lines[k + 1];
      NonBlankLinesSingle(rest);
      StripSingleLine(lines[0]);
    }
  }

  /** A first line that is not blank gives the first link. */
  lemma {:induction false} NonBlankLinesFirst(lines: seq<string>)
    requires lines != [] && !AllSpace(lines[0])
    ensures NonBlankLines(lines) != [] && NonBlankLines(lines)[0] == Strip(lines[0])
  {
    StripEmpty(lines[0]);
  }

  /** `document_links` for the submitted text: non-empty, stripped, one line each. */
  function CleanLinks(text: string): (r: seq<string>)
    ensures forall k :: 0 <= k < |r| ==> r[k] != [] && IsStripped(r[k]) && SingleLine(r[k])
  {
    NonBlankLinesSingle(SplitLines(Strip(text)));
    NonBlankLines(SplitLines(Strip(text)))
  }

  /** There are links exactly when the text holds some character that is not whitespace. */
  lemma {:induction false} CleanLinksEmpty(text: string)
    ensures CleanLinks(text) == [] <==> AllSpace(text)
  {
    var t := Strip(text);
    StripEmpty(text);
    if t != [] {
      var e := LineEnd(t, 0);
      LineBoundaryIsSpace(t[0]);
      var first := SplitLines(t)[0];
      assert first[0] == t[0];
      NonBlankLinesFirst(SplitLines(t));
    }
  }

  /** `saved_paths`: where each allowed upload is saved, in order. */
  function SavedUploads(svc: Services, uploads: seq<string>): (r: seq<string>)
    ensures |r| <= |uploads|
    decreases |uploads|
  {
    if uploads == [] then [] else SavedUpload(svc, uploads[0]) + SavedUploads(svc, uploads[1..])
  }

  /** The save path of one upload, when its name is allowed. */
  function SavedUpload(svc: Services, name: string): (r: seq<string>)
    ensures |r| <= 1
  {
    if AllowedFile(name) then [PathJoin(UploadFolder, svc.secureFilename(name))] else []
  }

  /** Nothing is saved exactly when no upload name is allowed. */
  lemma {:induction false} SavedUploadsEmpty(svc: Services, uploads: seq<string>)
    ensures SavedUploads(svc, uploads) == [] <==> forall i :: 0 <= i < |uploads| ==> !AllowedFile(uploads[i])
    decreases |uploads|
  {
    if uploads != [] {
      var rest := uploads[1..];
      SavedUploadsEmpty(svc, rest);
      assert forall i :: 0 <= i < |rest| ==> rest[i] == uploads[i + 1];
      if forall i :: 0 <= i < |rest| ==> !AllowedFile(rest[i]) {
        assert forall i :: 0 < i < |uploads| ==> !AllowedFile(uploads[i]) by {
          forall i | 0 < i < |uploads| ensures !AllowedFile(uploads[i]) {
            assert uploads[i] == rest[i - 1];
          }
        }
      }
    }
  }

  datatype Route = FilesRoute(paths: seq<string>) | UrlsRoute(links: seq<string>) | PineconeRoute

  /** Which source `index` indexes: the uploads when any name is allowed, else the links
      when there are any, else Pinecone. */
  function ChooseRoute(svc: Services, uploads: seq<string>, linksText: string): (r: Route)
    ensures r.FilesRoute? <==> exists i :: 0 <= i < |uploads| && AllowedFile(uploads[i])
    ensures r.FilesRoute? ==> r.paths == SavedUploads(svc, uploads) && r.paths != []
    ensures r.UrlsRoute? <==> (forall i :: 0 <= i < |uploads| ==> !AllowedFile(uploads[i])) && !AllSpace(linksText)
    ensures r.UrlsRoute? ==> r.links == CleanLinks(linksText)
  {
    CleanLinksEmpty(linksText);
    SavedUploadsEmpty(svc, uploads);
    var links := CleanLinks(linksText);
    if exists i :: 0 <= i < |uploads| && AllowedFile(uploads[i]) then FilesRoute(SavedUploads(svc, uploads))
    else if links != [] then UrlsRoute(links)
    else PineconeRoute
  }

  /** `vec_store.as_retriever(search_kwargs={"k": 5})` when there is a store. */
  function RetrieverFor(b: Build): (r: Option<Retriever>)
    ensures r.None? <==> b.Nothing?
    ensures r.Some? ==> r.value == Retriever(b.store, RetrieverK)
  {
    if b.Nothing? then None else Some(Retriever(b.store, RetrieverK))
  }

  /** The pair a build function returns. */
  function Pair(b: Build): (Option<Store>, Option<string>) {
    if b.Nothing? then (None, None) else (Some(b.store), Some(b.key))
  }

  /** The module state of flask_app.py: `FAISS_CACHE`, with the collaborators it uses. */
  class FlaskApp {
    const svc: Services
    const web: Web
    var faissCache: map<string, Store>

    constructor (svc: Services, web: Web)
      ensures this.svc == svc && this.web == web && faissCache == map[]
    {
      this.svc := svc;
      this.web := web;
      faissCache := map[];
    }

    /** `preload_faiss` over the directory listing `names`. */
    method PreloadFaiss(names: seq<string>)
      modifies this
      ensures faissCache == Preloaded(svc, old(faissCache), names)
    {
      var i := 0;
      while i < |names|
        invariant 0 <= i <= |names|
        invariant faissCache == Preloaded(svc, old(faissCache), names[..i])
      {
        assert names[..i + 1][..i] == names[..i];
        var path := IndexDir(names[i]);
        if svc.loadsIndex(path) {
          faissCache := faissCache[names[i] := Loaded(path)];
        }
        i := i + 1;
      }
      assert names[..|names|] == names;
    }

    /** `build_faiss_for_files`. */
    method BuildFaissForFiles(filePaths: seq<string>) returns (store: Option<Store>, key: Option<string>)
      modifies this
      ensures var b := FilesBuild(svc, filePaths);
        (store, key) == Pair(b) && faissCache == Commit(old(faissCache), b)
    {
      var allDocs := LoadAll(filePaths);
      if allDocs == [] {
        assert FilesBuild(svc, filePaths) == Nothing;
        return None, None;
      }
      var urlHash := Fingerprint(svc.sha256, filePaths);
      assert FilesBuild(svc, filePaths) == Fresh(Built(allDocs), urlHash);
      faissCache := faissCache[urlHash := Loaded(IndexDir(urlHash))];
      return Some(Built(allDocs)), Some(urlHash);
    }

    /** The loading loop of `build_faiss_for_files`: every file is handed to its loader,
        and the pages of those that load are gathered in order. */
    method LoadAll(filePaths: seq<string>) returns (allDocs: seq<Page>)
      ensures allDocs == LoadedPages(Reader(svc), filePaths)
    {
      ghost var read := Reader(svc);
      allDocs := [];
      var i := 0;
      PagesFromStart(read, filePaths);
      EmptyPrefix(LoadedPages(read, filePaths));
      while i < |filePaths|
        invariant 0 <= i <= |filePaths|
        invariant LoadedPages(read, filePaths) == allDocs + PagesFrom(read, filePaths, i)
      {
        var path := filePaths[i];
        var loaded := svc.load(LoaderFor(path), path);
        ghost var pages, later := read(path), PagesFrom(read, filePaths, i + 1);
        assert pages == loaded.GetOr([]);
        if loaded.Some? {
          Associative(allDocs, pages, later);
          allDocs := allDocs + loaded.value;
        } else {
          EmptyPrefix(later);
        }
        i := i + 1;
      }
      EmptySuffix(allDocs);
    }

    /** `build_faiss_for_urls`: a hit requests nothing; a miss requests every link once. */
    method BuildFaissForUrls(urls: seq<string>) returns (store: Option<Store>, key: Option<string>)
      modifies this, web
      ensures var b := UrlsBuild(old(faissCache), svc, web.respond, |old(web.requested)|, urls);
        && (store, key) == Pair(b) && faissCache == Commit(old(faissCache), b)
        && web.requested == old(web.requested) + (if b.Found? then [] else urls)
    {
      var urlHash := Fingerprint(svc.sha256, urls);
      if urlHash in faissCache {
        return Some(faissCache[urlHash]), Some(urlHash);
      }
      var savedFiles := DownloadAll(urls, Saver(svc));
      if savedFiles != [] {
        store, key := BuildFaissForFiles(savedFiles);
        return;
      }
      return None, None;
    }

    /** The download loop of `build_faiss_for_urls`: every link is requested once, in
        order, and a link answered with status 200 is saved. */
    method DownloadAll(urls: seq<string>, savePath: string -> string) returns (savedFiles: seq<string>)
      modifies web
      ensures web.requested == old(web.requested) + urls
      ensures savedFiles == Downloaded(web.respond, savePath, urls, |old(web.requested)|)
    {
      ghost var n := |web.requested|;
      savedFiles := [];
      var i := 0;
      while i < |urls|
        invariant 0 <= i <= |urls|
        invariant web.requested == old(web.requested) + urls[..i]
        invariant savedFiles == Downloaded(web.respond, savePath, urls[..i], n)
      {
        ghost var step := Contribution(web.respond, savePath, urls[i], n + i);
        assert Downloaded(web.respond, savePath, urls[..i + 1], n)
            == Downloaded(web.respond, savePath, urls[..i], n) + step by {
          assert urls[..i + 1][..i] == urls[..i] && urls[..i + 1][i] == urls[i];
        }
        assert |web.requested| == n + i;
        var response := web.Get(urls[i]);
        if Saves(response) {
          savedFiles := savedFiles + [savePath(urls[i])];
        } else {
          EmptySuffix(savedFiles);
        }
        i := i + 1;
      }
      assert urls[..|urls|] == urls;
    }

    /** The retriever `index` answers a POST with: uploads first (with no fallback when
        they load nothing), then links, then Pinecone; `uploads` are the filenames. */
    method Retrieve(uploads: seq<string>, linksText: string) returns (r: Option<Retriever>)
      modifies this, web
      ensures match ChooseRoute(svc, uploads, linksText)
        case FilesRoute(paths) =>
          var b := FilesBuild(svc, paths);
          r == RetrieverFor(b) && faissCache == Commit(old(faissCache), b) && web.requested == old(web.requested)
        case UrlsRoute(links) =>
          var b := UrlsBuild(old(faissCache), svc, web.respond, |old(web.requested)|, links);
          && r == RetrieverFor(b) && faissCache == Commit(old(faissCache), b)
          && web.requested == old(web.requested) + (if b.Found? then [] else links)
        case PineconeRoute =>
          && r == (if svc.pineconeUp then Some(Retriever(Pinecone(svc.pineconeIndex), RetrieverK)) else None)
          && faissCache == old(faissCache) && web.requested == old(web.requested)
    {
      var documentLinks := CleanLinks(linksText);
      ghost var route := ChooseRoute(svc, uploads, linksText);
      CleanLinksEmpty(linksText);
      r := None;
      if exists i :: 0 <= i < |uploads| && AllowedFile(uploads[i]) {
        var savedPaths := SaveUploads(uploads);
        assert route == FilesRoute(savedPaths);
        if savedPaths != [] {
          var vecStore, _ := BuildFaissForFiles(savedPaths);
          if vecStore.Some? {
            r := Some(Retriever(vecStore.value, RetrieverK));
          }
        }
      } else if documentLinks != [] {
        assert route == UrlsRoute(documentLinks);
        var vecStore, _ := BuildFaissForUrls(documentLinks);
        if vecStore.Some? {
          r := Some(Retriever(vecStore.value, RetrieverK));
        }
      } else {
        assert route == PineconeRoute;
        if svc.pineconeUp {
          r := Some(Retriever(Pinecone(svc.pineconeIndex), RetrieverK));
        }
      }
    }

    /** The upload loop of `index`: the save path of every allowed upload, in order.
        Writing the files is not modelled. */
    method SaveUploads(uploads: seq<string>) returns (savedPaths: seq<string>)
      ensures savedPaths == SavedUploads(svc, uploads)
    {
      savedPaths := [];
      var i := 0;
      assert uploads[0..] == uploads;
      EmptyPrefix(SavedUploads(svc, uploads));
      while i < |uploads|
        invariant 0 <= i <= |uploads|
        invariant SavedUploads(svc, uploads) == savedPaths + SavedUploads(svc, uploads[i..])
      {
        var name := uploads[i];
        ghost var saved, later := SavedUpload(svc, name), SavedUploads(svc, uploads[i + 1..]);
        assert SavedUploads(svc, uploads[i..]) == saved + later by {
          assert uploads[i..][0] == name && uploads[i..][1..] == uploads[i + 1..];
        }
        if AllowedFile(name) {
          Associative(savedPaths, saved, later);
          savedPaths := savedPaths + [PathJoin(UploadFolder, svc.secureFilename(name))];
        } else {
          EmptyPrefix(later);
        }
        i := i + 1;
      }
      assert uploads[i..] == [];
      EmptySuffix(savedPaths);
    }
  }
}
