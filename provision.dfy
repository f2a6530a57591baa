/** Getting the speed-test tool in place (`ensure_speedtest_binary`) and
    refreshing the Cloudflare address list (`download_cloudflare_ips`). */
module Provision {
  import opened Wrappers
  import opened Text
  import opened Files
  import opened Platform
  import opened Mirrors
  import opened Fetch
  import opened Archive

  /** The release directory of each channel (`TOOL_REPO`). */
  function ToolRepo(kind: ToolKind): string {
    match kind
    case Official => "https://github.com/XIU2/CloudflareSpeedTest/releases/latest/download/"
    case Proxy => "https://github.com/byJoey/CloudflareSpeedTest/releases/download/v1.0/"
  }

  /** The executable found or unpacked (relative to the working directory),
      the directory afterwards, and the download events. */
  datatype Provisioned = Provisioned(exec: Option<string>, dir: Dir, trace: seq<Event>)

  /** Everything outside the script that provisioning consults. */
  datatype Outside = Outside(host: Host, env: Env, net: Transport, unpack: Unpack)

  /** The archive download: every candidate address for the release file. */
  function ToolCandidates(kind: ToolKind, archive: string, env: Env): seq<string> {
    CandidateUrls(ToolRepo(kind) + archive, CustomProxy(env))
  }

  /** Unpacking, then the existence check on the chosen name. */
  function Finish(archive: string, o: Outside, d: Dir, trace: seq<Event>): Provisioned {
    var x := ExtractArchive(archive, o.host, o.unpack, d);
    if x.exec.Some? && PathExists(x.dir, x.exec.value) then Provisioned(x.exec, x.dir, trace)
    else Provisioned(None, x.dir, trace)
  }

  /** The provisioning steps for executable `exec`, archive `archive` and
      candidate addresses `urls`. */
  function Provide(exec: string, archive: string, urls: seq<string>, o: Outside, d: Dir): Provisioned {
    if exec in d then Provisioned(Some(exec), d, [])
    else if archive in d then Finish(archive, o, d, [])
    else
      var got := FetchFirst(urls, o.host.platform, o.net, archive, d);
      if !got.ok then Provisioned(None, got.dir, got.trace)
      else Finish(archive, o, got.dir, got.trace)
  }

  /** `ensure_speedtest_binary()`: the executable if present; else the
      archive if present, else downloaded from the first candidate address
      that works; then unpacked. An unidentifiable platform raises. */
  function EnsureSpec(kind: ToolKind, o: Outside, d: Dir): Result<Provisioned, Exc> {
    match GetSystemInfo(o.host)
    case Err(e) => Err(e)
    case Ok(sys) =>
      var archive := ToolFilename(kind, sys);
      Ok(Provide(ExecName(archive, o.host.platform), archive, ToolCandidates(kind, archive, o.env), o, d))
  }

  /** The imperative function, step by step. */
  method EnsureBinary(kind: ToolKind, o: Outside, d: Dir) returns (r: Result<Provisioned, Exc>)
    ensures r == EnsureSpec(kind, o, d)
  {
    var info := GetSystemInfo(o.host);
    if info.Err? {
      return Err(info.error);
    }
    var filename := ToolFilename(kind, info.value);
    var execName := ExecName(filename, o.host.platform);
    var p := ProvideTool(kind, filename, execName, o, d);
    r := Ok(p);
  }

  /** The checks and downloads once the names are known. */
  method ProvideTool(kind: ToolKind, filename: string, execName: string, o: Outside, d: Dir) returns (p: Provisioned)
    ensures p == Provide(execName, filename, ToolCandidates(kind, filename, o.env), o, d)
  {
    if execName in d {
      return Provisioned(Some(execName), d, []);
    }
    var dir := d;
    var trace: seq<Event> := [];
    if filename !in d {
      var got := DownloadTool(kind, filename, o, d);
      if !got.ok {
        return Provisioned(None, got.dir, got.trace);
      }
      dir, trace := got.dir, got.trace;
    }
    p := FinishTool(filename, o, dir, trace);
  }

  /** The archive download over every candidate address. */
  method DownloadTool(kind: ToolKind, filename: string, o: Outside, d: Dir) returns (got: Fetched)
    ensures got == FetchFirst(ToolCandidates(kind, filename, o.env), o.host.platform, o.net, filename, d)
  {
    var originalUrl := ToolRepo(kind) + filename;
    var attemptUrls := AcceleratorUrls(originalUrl, o.env);
    got := DownloadFromAny(attemptUrls, filename, o.host.platform, o.net, d);
  }

  /** Unpacking and the existence check. */
  method FinishTool(archive: string, o: Outside, d: Dir, trace: seq<Event>) returns (p: Provisioned)
    ensures p == Finish(archive, o, d, trace)
  {
    var extracted := ExtractArchive(archive, o.host, o.unpack, d);
    if extracted.exec.Some? && PathExists(extracted.dir, extracted.exec.value) {
      return Provisioned(extracted.exec, extracted.dir, trace);
    }
    p := Provisioned(None, extracted.dir, trace);
  }

  /** The only failure is the platform's. */
  lemma EnsureErrors(kind: ToolKind, o: Outside, d: Dir)
    ensures EnsureSpec(kind, o, d).Err? <==> GetSystemInfo(o.host).Err?
    ensures EnsureSpec(kind, o, d).Err? ==> EnsureSpec(kind, o, d).error == OtherException
  {
  }

  /** The steps in order: a present executable is returned with nothing
      downloaded or unpacked; a present archive is unpacked with nothing
      downloaded; otherwise, when no candidate works, nothing is returned and
      the directory is as it was. A name is returned only when something of
      that name exists. */
  lemma {:induction false} ProvideSteps(exec: string, archive: string, urls: seq<string>, o: Outside, d: Dir)
    requires urls != []
    ensures var r := Provide(exec, archive, urls, o, d);
      && (exec in d ==> r == Provisioned(Some(exec), d, []))
      && (archive in d ==> r.trace == [])
      && ((exec !in d && archive !in d && !FetchFirst(urls, o.host.platform, o.net, archive, d).ok)
           ==> r.exec == None && r.dir == d)
      && (r.exec.Some? ==> PathExists(r.dir, r.exec.value))
      && (r.exec.Some? ==> exec in r.dir || archive in r.dir)
  {
    if exec !in d && archive !in d {
      var got := FetchFirst(urls, o.host.platform, o.net, archive, d);
      FetchFirstFacts(urls, o.host.platform, o.net, archive, d);
      if !got.ok {
        SameOffKey(got.dir, d, archive);
      } else {
        assert archive in got.dir;
        assert archive in ExtractArchive(archive, o.host, o.unpack, got.dir).dir;
      }
    } else if exec !in d {
      assert archive in ExtractArchive(archive, o.host, o.unpack, d).dir;
    }
  }

  /** Once provisioning has produced an executable, running it again
      downloads nothing: the executable or at least the archive is still
      there. */
  lemma ProvideTwice(exec: string, archive: string, urls: seq<string>, o: Outside, d: Dir)
    requires urls != [] && Provide(exec, archive, urls, o, d).exec.Some?
    ensures Provide(exec, archive, urls, o, Provide(exec, archive, urls, o, d).dir).trace == []
  {
    ProvideSteps(exec, archive, urls, o, d);
    var d1 := Provide(exec, archive, urls, o, d).dir;
    ProvideSteps(exec, archive, urls, o, d1);
  }

  /** A failed unpack can leave the executable half-written. The run that
      failed returns nothing, but the next run finds a file of that name
      and returns it without downloading or unpacking. */
  lemma PartialUnpackReused(exec: string, archive: string, urls: seq<string>, o: Outside, d: Dir, k: nat)
    requires exec !in d && archive in d
    requires EndsWith(archive, ".zip") || EndsWith(archive, ".tar.gz")
    requires o.unpack(archive).UnpackFailed?
    requires k < |o.unpack(archive).written| && o.unpack(archive).written[k].path == exec
    ensures var r := Provide(exec, archive, urls, o, d);
      && r.exec == None
      && Provide(exec, archive, urls, o, r.dir) == Provisioned(Some(exec), r.dir, [])
  {
  }

  /** The release download always has a candidate: the original address. */
  lemma ToolCandidatesNonEmpty(kind: ToolKind, archive: string, env: Env)
    ensures ToolCandidates(kind, archive, env) != []
  {
    CandidateUrlsEndWithOriginal(ToolRepo(kind) + archive, CustomProxy(env));
  }

  /** With the script's setting (`TOOL_TYPE = "proxy"`) the archive is the
      proxy build, and the last address tried is its release page. */
  lemma ConfiguredRelease(sys: System, env: Env)
    ensures StartsWith(ToolFilename(TOOL_TYPE, sys), "CloudflareST_proxy_")
    ensures var urls := ToolCandidates(TOOL_TYPE, ToolFilename(TOOL_TYPE, sys), env);
      urls != [] && urls[|urls| - 1]
        == "https://github.com/byJoey/CloudflareSpeedTest/releases/download/v1.0/" + ToolFilename(TOOL_TYPE, sys)
  {
    var name := ToolFilename(TOOL_TYPE, sys);
    ProxyFilename(sys);
    var page := ToolRepo(TOOL_TYPE) + name;
    assert page == "https://github.com/byJoey/CloudflareSpeedTest/releases/download/v1.0/" + name;
    assert ToolCandidates(TOOL_TYPE, name, env) == CandidateUrls(page, CustomProxy(env));
    CandidateUrlsEndWithOriginal(page, CustomProxy(env));
  }

  lemma ProxyFilename(sys: System)
    ensures StartsWith(ToolFilename(Proxy, sys), "CloudflareST_proxy_")
  {
    var base := "CloudflareST_proxy" + "_";
    var rest := sys.os + "_" + sys.arch + "." + ArchiveExt(sys.os);
    assert ToolFilename(Proxy, sys) == base + rest;
    PrefixOfConcat(base, rest);
  }

  lemma PrefixOfConcat(p: string, q: string)
    ensures StartsWith(p + q, p)
  {
    assert (p + q)[..|p|] == p;
  }

  /** `ensure_speedtest_binary` in terms of the steps above. */
  lemma EnsureIsProvide(kind: ToolKind, o: Outside, d: Dir)
    requires GetSystemInfo(o.host).Ok?
    ensures var archive := ToolFilename(kind, GetSystemInfo(o.host).value);
      EnsureSpec(kind, o, d) == Ok(Provide(ExecName(archive, o.host.platform), archive, ToolCandidates(kind, archive, o.env), o, d))
  {
  }

  /** After a run that produced an executable, a second run downloads nothing. */
  lemma SecondRunDownloadsNothing(kind: ToolKind, o: Outside, d: Dir)
    requires EnsureSpec(kind, o, d).Ok? && EnsureSpec(kind, o, d).value.exec.Some?
    ensures var d1 := EnsureSpec(kind, o, d).value.dir;
      EnsureSpec(kind, o, d1).Ok? && EnsureSpec(kind, o, d1).value.trace == []
  {
    EnsureIsProvide(kind, o, d);
    var d1 := EnsureSpec(kind, o, d).value.dir;
    EnsureIsProvide(kind, o, d1);
    var archive := ToolFilename(kind, GetSystemInfo(o.host).value);
    ToolCandidatesNonEmpty(kind, archive, o.env);
    ProvideTwice(ExecName(archive, o.host.platform), archive, ToolCandidates(kind, archive, o.env), o, d);
  }

  // ----- download_cloudflare_ips -----

  /** The published address lists, by IP version. */
  function IpListUrl(version: string): Option<string> {
    if version == "ipv4" then Some("https://raw.githubusercontent.com/XIU2/CloudflareSpeedTest/master/ip.txt")
    else if version == "ipv6" then Some("https://raw.githubusercontent.com/XIU2/CloudflareSpeedTest/master/ipv6.txt")
    else None
  }

  /** Trying every candidate address for the list at `url`. */
  function ListFetch(url: string, ipFile: string, env: Env, platform: string, net: Transport, d: Dir): Fetched {
    FetchFirst(CandidateUrls(url, CustomProxy(env)), platform, net, ipFile, d)
  }

  /** `download_cloudflare_ips(version, ipFile)`. */
  function IpListSpec(version: string, ipFile: string, env: Env, platform: string, net: Transport, d: Dir): Fetched {
    match IpListUrl(version)
    case None => Fetched(false, d, [])
    case Some(url) => ListFetch(url, ipFile, env, platform, net, d)
  }

  method DownloadCloudflareIps(version: string, ipFile: string, env: Env, platform: string, net: Transport, d: Dir)
    returns (r: Fetched)
    ensures r == IpListSpec(version, ipFile, env, platform, net, d)
  {
    var originalUrl := IpListUrl(version);
    if originalUrl.None? {
      return Fetched(false, d, []);
    }
    var attemptUrls := AcceleratorUrls(originalUrl.value, env);
    r := DownloadFromAny(attemptUrls, ipFile, platform, net, d);
  }

  /** Trying every candidate for `url`: success leaves a non-empty file,
      failure leaves none, and only that file changes. */
  lemma CandidateFetchFacts(url: string, env: Env, platform: string, net: Transport, f: string, d: Dir)
    ensures var r := ListFetch(url, f, env, platform, net, d);
      && (r.ok ==> f in r.dir && r.dir[f] > 0)
      && (!r.ok ==> f !in r.dir)
      && r.dir - {f} == d - {f}
  {
    CandidateUrlsEndWithOriginal(url, CustomProxy(env));
    FetchFirstFacts(CandidateUrls(url, CustomProxy(env)), platform, net, f, d);
  }

  /** An unknown version fails at once; otherwise success leaves a
      non-empty list, and failure deletes any list that was there before.
      Only the list file changes. */
  lemma IpListOutcome(version: string, ipFile: string, env: Env, platform: string, net: Transport, d: Dir)
    ensures var r := IpListSpec(version, ipFile, env, platform, net, d);
      && (IpListUrl(version).None? ==> r == Fetched(false, d, []))
      && (r.ok ==> ipFile in r.dir && r.dir[ipFile] > 0)
      && (!r.ok && IpListUrl(version).Some? ==> ipFile !in r.dir)
      && r.dir - {ipFile} == d - {ipFile}
  {
    var r := IpListSpec(version, ipFile, env, platform, net, d);
    match IpListUrl(version)
    case None =>
      assert r == Fetched(false, d, []);
    case Some(url) =>
      assert r == ListFetch(url, ipFile, env, platform, net, d);
      CandidateFetchFacts(url, env, platform, net, ipFile, d);
  }
}
