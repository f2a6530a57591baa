/** Candidate download addresses: an optional operator mirror, the fixed
    public mirrors, and the original address (`get_accelerator_urls`); and
    the token-bearing clone addresses built by `upload_to_github`. */
module Mirrors {
  import opened Wrappers
  import opened Text
  import opened Seqs
  import opened Files

  const ACCELERATOR_DOMAINS: seq<string> := [
    "https://gh-proxy.com/",
    "https://fastly.jsdelivr.net/",
    "https://testingcf.jsdelivr.net/",
    "https://cdn.jsdelivr.net/"
  ]

  /** `os.environ.get("GITHUB_PROXY", "").strip()`. */
  function CustomProxy(env: Env): string {
    Strip(EnvGet(env, "GITHUB_PROXY"))
  }

  /** The operator mirror with a trailing `/` added when it lacks one. */
  function WithSlash(p: string): (r: string)
    ensures EndsWith(r, "/") && StartsWith(r, p)
  {
    if EndsWith(p, "/") then p
    else
      assert (p + "/")[|p|..] == "/";
      assert (p + "/")[..|p|] == p;
      p + "/"
  }

  /** The mirror prefixes in listing order, before de-duplication. */
  function Accelerators(proxy: string): seq<string> {
    (if proxy != "" then [WithSlash(proxy)] else []) + ACCELERATOR_DOMAINS
  }

  function Prefixed(prefixes: seq<string>, url: string): (r: seq<string>)
    ensures |r| == |prefixes| && forall i :: 0 <= i < |r| ==> r[i] == prefixes[i] + url
  {
    seq(|prefixes|, i requires 0 <= i < |prefixes| => prefixes[i] + url)
  }

  /** The candidate list for `url` given the (stripped) operator mirror. */
  function CandidateUrls(url: string, proxy: string): seq<string> {
    Prefixed(Dedup(Accelerators(proxy)), url) + [url]
  }

  /** `get_accelerator_urls(original_url)`. */
  method AcceleratorUrls(url: string, env: Env) returns (urls: seq<string>)
    ensures urls == CandidateUrls(url, CustomProxy(env))
  {
    var customProxy := Strip(EnvGet(env, "GITHUB_PROXY"));
    ghost var proxy := customProxy;
    assert proxy == CustomProxy(env);
    var accelerators: seq<string> := [];
    if customProxy != "" {
      if !EndsWith(customProxy, "/") {
        customProxy := customProxy + "/";
      }
      assert customProxy == WithSlash(proxy);
      accelerators := accelerators + [customProxy];
    }
    assert accelerators == if proxy != "" then [WithSlash(proxy)] else [];
    accelerators := accelerators + ACCELERATOR_DOMAINS;
    var unique := DedupInOrder(accelerators);
    urls := Prefixed(unique, url) + [url];
  }

  /** The candidate list is never empty: it ends with the original address. */
  lemma CandidateUrlsEndWithOriginal(url: string, proxy: string)
    ensures var r := CandidateUrls(url, proxy); r != [] && r[|r| - 1] == url
  {
  }

  lemma AcceleratorsNonEmptyAndSlashed(proxy: string)
    ensures forall i :: 0 <= i < |Accelerators(proxy)| ==>
              Accelerators(proxy)[i] != [] && EndsWith(Accelerators(proxy)[i], "/")
  {
  }

  /** The original address is the last candidate, and every earlier one is
      a distinct listed mirror prefix followed by the original address. */
  lemma CandidateUrlsShape(url: string, proxy: string)
    ensures var r := CandidateUrls(url, proxy);
      && |r| >= 2 && r[|r| - 1] == url
      && forall i :: 0 <= i < |r| - 1 ==>
           exists prefix :: prefix in Accelerators(proxy) && EndsWith(prefix, "/") && r[i] == prefix + url
  {
    var accs := Accelerators(proxy);
    var u := Dedup(accs);
    AcceleratorsNonEmptyAndSlashed(proxy);
    assert accs[|accs| - 1] in u;
    var r := CandidateUrls(url, proxy);
    forall i | 0 <= i < |r| - 1
      ensures exists prefix :: prefix in accs && EndsWith(prefix, "/") && r[i] == prefix + url
    {
      assert r[i] == u[i] + url;
      assert u[i] in accs;
    }
  }

  /** No candidate address repeats. */
  lemma CandidateUrlsDistinct(url: string, proxy: string)
    ensures NoDup(CandidateUrls(url, proxy))
  {
    var accs := Accelerators(proxy);
    var u := Dedup(accs);
    var r := CandidateUrls(url, proxy);
    AcceleratorsNonEmptyAndSlashed(proxy);
    forall i, j | 0 <= i < j < |r| ensures r[i] != r[j] {
      assert u[i] in accs;
      if j < |r| - 1 {
        AppendCancels(u[i], u[j], url);
      } else {
        assert |r[i]| == |u[i]| + |url| > |url|;
      }
    }
  }

  lemma AppendCancels(a: string, b: string, c: string)
    ensures a + c == b + c ==> a == b
  {
    if a + c == b + c {
      assert a == (a + c)[..|a|];
      assert b == (b + c)[..|b|];
    }
  }

  /** A configured operator mirror comes first, with its `/` ensured. */
  lemma CustomProxyFirst(url: string, proxy: string)
    requires proxy != ""
    ensures CandidateUrls(url, proxy)[0] == WithSlash(proxy) + url
  {
    DedupHead(Accelerators(proxy));
  }

  /** The list has one entry per distinct prefix plus the original address:
      an operator mirror equal to a built-in one collapses into it. */
  lemma CandidateUrlsCount(url: string, proxy: string)
    ensures |CandidateUrls(url, proxy)| == |Elements(Accelerators(proxy))| + 1
    ensures proxy == "" || WithSlash(proxy) in ACCELERATOR_DOMAINS ==> |CandidateUrls(url, proxy)| == 5
    ensures proxy != "" && WithSlash(proxy) !in ACCELERATOR_DOMAINS ==> |CandidateUrls(url, proxy)| == 6
  {
    DedupLength(Accelerators(proxy));
    AcceleratorsCount(proxy);
  }

  /** How many different mirror prefixes there are. */
  lemma AcceleratorsCount(proxy: string)
    ensures |Elements(Accelerators(proxy))| ==
      if proxy == "" || WithSlash(proxy) in ACCELERATOR_DOMAINS then 4 else 5
  {
    DomainsDistinct();
    var e := Elements(ACCELERATOR_DOMAINS);
    if proxy != "" {
      var ws := WithSlash(proxy);
      assert Accelerators(proxy) == [ws] + ACCELERATOR_DOMAINS;
      assert Elements([ws] + ACCELERATOR_DOMAINS) == {ws} + e;
      if ws in ACCELERATOR_DOMAINS {
        assert {ws} + e == e;
      } else {
        assert ws !in e;
      }
    } else {
      assert Accelerators(proxy) == ACCELERATOR_DOMAINS;
    }
  }

  /** The four built-in mirrors are different. */
  lemma DomainsDistinct()
    ensures |Elements(ACCELERATOR_DOMAINS)| == 4
  {
    var ds := ACCELERATOR_DOMAINS;
    assert ds[0][8] == 'g' && ds[1][8] == 'f' && ds[2][8] == 't' && ds[3][8] == 'c';
    assert NoDup(ds);
    NoDupCardinality(ds);
  }

  // ----- upload_to_github: the clone-address list -----

  /** The host part `upload_to_github` takes from a mirror: the `https://`
      removed, then every `/` removed. */
  function MirrorHost(acc: string): string {
    ReplaceAll(ReplaceAll(acc, "https://", ""), "/", "")
  }

  /** One clone address through mirror `acc`; with a token it goes in the
      user-info part, `https://{token}@{host}/{path}`. */
  function CloneUrl(acc: string, token: string, repoPath: string): string {
    if token != "" then "https://" + token + "@" + MirrorHost(acc) + "/" + repoPath
    else acc + repoPath
  }

  /** The per-mirror clone addresses, skipping a mirror without a trailing `/`. */
  function MirrorCloneUrls(accs: seq<string>, token: string, repoPath: string): seq<string> {
    if accs == [] then []
    else
      (if EndsWith(accs[0], "/") then [CloneUrl(accs[0], token, repoPath)] else [])
        + MirrorCloneUrls(accs[1..], token, repoPath)
  }

  /** The clone addresses for repository `repo`: every listed mirror, NOT
      de-duplicated, then the direct GitHub address. */
  function CloneUrls(token: string, repo: string, proxy: string): seq<string> {
    var repoPath := "github.com/" + repo + ".git";
    MirrorCloneUrls(Accelerators(proxy), token, repoPath)
      + [if token != "" then "https://" + token + "@github.com/" + repo + ".git" else "https://" + repoPath]
  }

  /** The clone attempts of `upload_to_github`, or `None` when it returns
      early because the token or the repository is not configured. */
  function UploadTargets(env: Env): Option<seq<string>> {
    var token := EnvGet(env, "GITHUB_TOKEN");
    var repo := EnvGet(env, "GITHUB_REPO");
    if token == "" || repo == "" then None
    else Some(CloneUrls(token, repo, CustomProxy(env)))
  }

  lemma {:induction false} MirrorCloneUrlsAll(accs: seq<string>, token: string, repoPath: string)
    requires forall i :: 0 <= i < |accs| ==> EndsWith(accs[i], "/")
    ensures var r := MirrorCloneUrls(accs, token, repoPath);
      |r| == |accs| && forall i :: 0 <= i < |accs| ==> r[i] == CloneUrl(accs[i], token, repoPath)
  {
    if accs != [] {
      MirrorCloneUrlsAll(accs[1..], token, repoPath);
    }
  }

  /** One clone address per listed mirror, in order, then the direct one. */
  lemma CloneUrlsShape(token: string, repo: string, proxy: string)
    ensures var r := CloneUrls(token, repo, proxy);
      var accs := Accelerators(proxy);
      && |r| == |accs| + 1
      && (forall i :: 0 <= i < |accs| ==> r[i] == CloneUrl(accs[i], token, "github.com/" + repo + ".git"))
      && (token != "" ==> r[|r| - 1] == "https://" + token + "@github.com/" + repo + ".git")
  {
    AcceleratorsNonEmptyAndSlashed(proxy);
    MirrorCloneUrlsAll(Accelerators(proxy), token, "github.com/" + repo + ".git");
  }

  /** With a token, a clone address through any mirror starts with the token's user-info part. */
  lemma CloneUrlCarriesToken(acc: string, token: string, repoPath: string)
    requires token != ""
    ensures StartsWith(CloneUrl(acc, token, repoPath), "https://" + token + "@")
  {
    var head := "https://" + token + "@";
    assert CloneUrl(acc, token, repoPath) == head + (MirrorHost(acc) + "/" + repoPath);
  }

  /** With a token set, every clone address carries it in the user-info part. */
  lemma CloneUrlsCarryToken(token: string, repo: string, proxy: string)
    requires token != ""
    ensures var r := CloneUrls(token, repo, proxy);
      forall i :: 0 <= i < |r| ==> StartsWith(r[i], "https://" + token + "@")
  {
    CloneUrlsShape(token, repo, proxy);
    var r := CloneUrls(token, repo, proxy);
    var accs := Accelerators(proxy);
    var head := "https://" + token + "@";
    var repoPath := "github.com/" + repo + ".git";
    DirectCarriesToken(token, repo);
    forall i | 0 <= i < |r| ensures StartsWith(r[i], head) {
      if i < |accs| {
        CloneUrlCarriesToken(accs[i], token, repoPath);
      }
    }
  }

  /** The direct GitHub clone address with a token carries it too. */
  lemma DirectCarriesToken(token: string, repo: string)
    ensures StartsWith("https://" + token + "@github.com/" + repo + ".git", "https://" + token + "@")
  {
    var head := "https://" + token + "@";
    assert "@github.com/" == "@" + "github.com/";
    assert "https://" + token + "@github.com/" + repo + ".git" == head + ("github.com/" + repo + ".git");
  }

  /** Unlike the download candidates, the clone list keeps an operator mirror
      that repeats a built-in one, so the same address is tried twice. */
  lemma CloneUrlsKeepDuplicates(token: string, repo: string, proxy: string, k: nat)
    requires proxy != "" && k < |ACCELERATOR_DOMAINS| && WithSlash(proxy) == ACCELERATOR_DOMAINS[k]
    ensures var r := CloneUrls(token, repo, proxy); |r| == 6 && r[0] == r[k + 1]
  {
    CloneUrlsShape(token, repo, proxy);
  }
}
