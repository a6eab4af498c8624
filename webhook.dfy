/**
 * The webhook controller: it reads a build-config ID, a secret and a plugin
 * name out of the request path, checks them, asks the plugin to extract a
 * build from the request and creates it. The HTTP machinery, the API client
 * and the plugins are parameters: `getBuildConfig` and `createBuild` stand
 * for the client's calls, `plugins` maps each registered plugin name to the
 * result its Extract gives for this request.
 */
module Webhook {
  import opened Wrappers
  import opened Strings
  import opened BuildApi

  /** The parsed parts of a webhook URL. */
  datatype UrlVars = UrlVars(buildId: string, secret: string, plugin: string, path: string)

  /** splitPath: strip every leading and trailing '/', then split on '/'; nothing left gives no segments. */
  function SplitPath(path: string): (parts: seq<string>)
    ensures parts == [] <==> Trim(path, '/') == ""
    ensures parts != [] ==> Join(parts, '/') == Trim(path, '/') && NoSep(parts, '/')
    ensures parts != [] ==> parts[0] != "" && parts[|parts| - 1] != ""
  {
    var trimmed := Trim(path, '/');
    if trimmed == "" then []
    else
      SplitTrimmed(path);
      Split(trimmed, '/')
  }

  /** The segments of a path that is not only slashes join back to it, hold no '/', and have non-empty ends. */
  lemma SplitTrimmed(path: string)
    requires Trim(path, '/') != ""
    ensures var trimmed := Trim(path, '/');
      var parts := Split(trimmed, '/');
      && Join(parts, '/') == trimmed && NoSep(parts, '/')
      && parts[0] != "" && parts[|parts| - 1] != ""
  {
    var trimmed := Trim(path, '/');
    JoinSplit(trimmed, '/');
    SplitFieldsHaveNoSep(trimmed, '/');
    TrimShape(path, '/');
    JoinEndParts(Split(trimmed, '/'), '/');
  }

  /** The path a set of URL parts stands for: buildId/secret/plugin, then /path when there is one. */
  function UrlPath(uv: UrlVars): string {
    uv.buildId + "/" + uv.secret + "/" + uv.plugin + (if uv.path == "" then "" else "/" + uv.path)
  }

  /** parseUrl: at least three segments are needed; the fourth onward form `path`. */
  function ParseUrl(url: string): (r: Result<UrlVars, Error>)
    ensures r.Err? <==> |SplitPath(url)| < 3
    ensures r.Err? ==> r.error == "Unexpected URL " + url + "!"
    ensures r.Ok? ==> (r.value.path == "" <==> |SplitPath(url)| == 3)
  {
    var parts := SplitPath(url);
    if |parts| < 3 then Err("Unexpected URL " + url + "!")
    else
      var path := if |parts| > 3 then Join(parts[3..], '/') else "";
      assert |parts| > 3 ==> path != "" by {
        if |parts| > 3 { JoinOfNonEmptyTail(parts[3..]); }
      }
      Ok(UrlVars(parts[0], parts[1], parts[2], path))
  }

  /** A join of parts whose last part is non-empty is non-empty. */
  lemma JoinOfNonEmptyTail(parts: seq<string>)
    requires |parts| >= 1 && parts[|parts| - 1] != ""
    ensures Join(parts, '/') != ""
  {
    if |parts| >= 2 {
      JoinSnoc(parts, '/');
    }
  }

  /** Parsing then re-joining gives back the request path without its outer slashes. */
  lemma ParseUrlRoundTrip(url: string)
    requires ParseUrl(url).Ok?
    ensures UrlPath(ParseUrl(url).value) == Trim(url, '/')
  {
    var parts := SplitPath(url);
    JoinFirstThree(parts);
  }

  /** A join of at least three segments, with the first three written out. */
  lemma JoinFirstThree(parts: seq<string>)
    requires |parts| >= 3
    ensures Join(parts, '/') ==
      parts[0] + "/" + parts[1] + "/" + parts[2] + (if |parts| == 3 then "" else "/" + Join(parts[3..], '/'))
  {
    var rest := if |parts| == 3 then "" else "/" + Join(parts[3..], '/');
    var x := parts[0] + "/";
    var y := parts[1] + "/";
    assert parts[1..][1..] == parts[2..];
    JoinCons(parts, '/');
    JoinCons(parts[1..], '/');
    if |parts| == 3 {
      assert parts[2..] == [parts[2]];
    } else {
      JoinCons(parts[2..], '/');
      assert parts[2..][1..] == parts[3..];
      ConcatAssoc(parts[2], "/", Join(parts[3..], '/'));
    }
    assert Join(parts[2..], '/') == parts[2] + rest;
    calc {
      Join(parts, '/');
      x + (y + (parts[2] + rest));
      { ConcatAssoc(x, y, parts[2] + rest); }
      x + y + (parts[2] + rest);
      { ConcatAssoc(x + y, parts[2], rest); }
      x + y + parts[2] + rest;
      { ConcatAssoc(x, parts[1], "/"); }
      x + parts[1] + "/" + parts[2] + rest;
    }
  }

  /** URL parts that a request path can carry: no '/' inside the first three, and no empty last segment. */
  predicate Representable(uv: UrlVars) {
    && uv.buildId != ""
    && '/' !in uv.buildId && '/' !in uv.secret && '/' !in uv.plugin
    && (if uv.path == "" then uv.plugin != "" else uv.path[|uv.path| - 1] != '/')
  }

  /** The segments a path of representable parts splits into. */
  function UrlParts(uv: UrlVars): seq<string> {
    [uv.buildId, uv.secret, uv.plugin] + (if uv.path == "" then [] else Split(uv.path, '/'))
  }

  lemma UrlPartsJoin(uv: UrlVars)
    requires Representable(uv)
    ensures Join(UrlParts(uv), '/') == UrlPath(uv)
  {
    var parts := UrlParts(uv);
    JoinFirstThree(parts);
    if uv.path != "" {
      JoinSplit(uv.path, '/');
      assert parts[3..] == Split(uv.path, '/');
    }
  }

  lemma UrlPartsNoSep(uv: UrlVars)
    requires Representable(uv)
    ensures NoSep(UrlParts(uv), '/')
  {
    var parts := UrlParts(uv);
    var tail := if uv.path == "" then [] else Split(uv.path, '/');
    if uv.path != "" { SplitFieldsHaveNoSep(uv.path, '/'); }
    assert forall i :: 3 <= i < |parts| ==> parts[i] == tail[i - 3];
  }

  lemma UrlPathUnpadded(uv: UrlVars)
    requires Representable(uv)
    ensures var s := UrlPath(uv); s != [] && s[0] != '/' && s[|s| - 1] != '/'
  {
    var s := UrlPath(uv);
    assert s[0] == uv.buildId[0];
    assert uv.buildId[0] in uv.buildId;
    if uv.path == "" {
      assert s[|s| - 1] == uv.plugin[|uv.plugin| - 1];
      assert uv.plugin[|uv.plugin| - 1] in uv.plugin;
    }
  }

  /** Every representable set of parts is read back from its path, however many slashes surround it. */
  lemma ParseUrlOfUrlPath(uv: UrlVars, before: nat, after: nat)
    requires Representable(uv)
    ensures ParseUrl(Repeat('/', before) + UrlPath(uv) + Repeat('/', after)) == Ok(uv)
  {
    var url := Repeat('/', before) + UrlPath(uv) + Repeat('/', after);
    var parts := UrlParts(uv);
    UrlPartsJoin(uv);
    UrlPartsNoSep(uv);
    UrlPathUnpadded(uv);
    TrimPadded(UrlPath(uv), '/', before, after);
    SplitJoin(parts, '/');
    assert SplitPath(url) == parts;
    if uv.path != "" {
      JoinSplit(uv.path, '/');
      assert parts[3..] == Split(uv.path, '/');
    }
  }

  // ------------------------------------------------------------ ServeHTTP

  /** What a plugin's Extract gives for the request at hand: an error, no build (nil), or a build. */
  datatype Extracted = ExtractFailed(err: Error) | NoBuild | Extracted(build: Build)

  /** A registered plugin: Extract applied to the build config and the URL's trailing path. */
  type Extractor = (BuildConfig, string) -> Extracted

  const StatusOK := 200
  const StatusBadRequest := 400
  const StatusNotFound := 404

  /**
   * The outcome of one request: the status written, the message body, and the
   * build handed to CreateBuild when the chain got that far.
   */
  datatype Response = Response(status: int, body: string, created: Option<Build>)

  /** Every guard of the chain passes: the path parses, the config exists, the secret matches, the plugin is known and extracts. */
  predicate GuardsPass(
    urlPath: string, getBuildConfig: string -> Result<BuildConfig, Error>, plugins: map<string, Extractor>)
  {
    var uv := ParseUrl(urlPath);
    && uv.Ok?
    && getBuildConfig(uv.value.buildId).Ok?
    && uv.value.secret == getBuildConfig(uv.value.buildId).value.secret
    && uv.value.plugin in plugins
    && !plugins[uv.value.plugin](getBuildConfig(uv.value.buildId).value, uv.value.path).ExtractFailed?
  }

  /** ServeHTTP: the guard chain with its early returns. */
  function ServeHTTP(
    urlPath: string,
    getBuildConfig: string -> Result<BuildConfig, Error>,
    plugins: map<string, Extractor>,
    createBuild: Build -> Option<Error>): (resp: Response)
    ensures resp.created.Some? <==> GuardsPass(urlPath, getBuildConfig, plugins)
    ensures resp.status in {StatusOK, StatusBadRequest, StatusNotFound}
    ensures resp.status == StatusNotFound <==>
      ParseUrl(urlPath).Err?
      || (var uv := ParseUrl(urlPath).value;
          && getBuildConfig(uv.buildId).Ok?
          && uv.secret == getBuildConfig(uv.buildId).value.secret
          && uv.plugin !in plugins)
    ensures resp.status == StatusOK <==> resp.created.Some? && createBuild(resp.created.value).None?
    ensures resp.created.Some? ==>
      var uv := ParseUrl(urlPath).value;
      var cfg := getBuildConfig(uv.buildId).value;
      match plugins[uv.plugin](cfg, uv.path)
      case NoBuild => resp.created.value == BuildFromInput(cfg.desiredInput)
      case Extracted(b) => resp.created.value == b
      case ExtractFailed(_) => false
  {
    match ParseUrl(urlPath)
    case Err(e) => Response(StatusNotFound, e, None)
    case Ok(uv) =>
      match getBuildConfig(uv.buildId)
      case Err(e) => Response(StatusBadRequest, e, None)
      case Ok(cfg) =>
        if uv.secret != cfg.secret then Response(StatusBadRequest, "", None)
        else if uv.plugin !in plugins then Response(StatusNotFound, "Plugin " + uv.plugin + " not found!", None)
        else
          match plugins[uv.plugin](cfg, uv.path)
          case ExtractFailed(e) => Response(StatusBadRequest, e, None)
          case NoBuild => Created(BuildFromInput(cfg.desiredInput), createBuild)
          case Extracted(b) => Created(b, createBuild)
  }

  /** The last step: CreateBuild's error, if any, is a bad request; otherwise nothing is written (200). */
  function Created(build: Build, createBuild: Build -> Option<Error>): (resp: Response)
    ensures resp.created == Some(build)
    ensures resp.status == (if createBuild(build).None? then StatusOK else StatusBadRequest)
  {
    match createBuild(build)
    case Some(e) => Response(StatusBadRequest, e, Some(build))
    case None => Response(StatusOK, "", Some(build))
  }
}
