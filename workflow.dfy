/** The whole run (`auto_run_test`): provision the tool, read the parameters,
    refresh the address list, then either one speed test or the two-phase
    region scan and retest, then the proxy list. The result is the exit
    code that tells the supervisor whether to restart the container. */
module Workflow {
  import opened Wrappers
  import opened Text
  import opened Files
  import opened Platform
  import opened Fetch
  import opened Provision
  import opened Params
  import opened Command
  import opened Region
  import opened ProxyList

  const EXIT_SUCCESS := 0
  const EXIT_FATAL := 1
  const EXIT_NON_FATAL := 2

  const SCAN_CSV := "region_scan.csv"
  const SCAN_URL := "http://CloudflareIP/cdn-cgi/trace"
  const DEFAULT_CLOUDFLARE_IP_FILE := "cloudflare_ips.txt"

  /** The switches of the region scan. */
  const SCAN_FLAGS: set<string> := {"dd", "httping"}

  /** The top-level handler: network, timeout and connection errors are
      worth waiting for the next scheduled run; anything else is fatal. */
  function Classify(e: Exc): (code: int)
    ensures code == EXIT_NON_FATAL <==> e != OtherException
    ensures code == EXIT_FATAL <==> e == OtherException
  {
    match e
    case RequestException => EXIT_NON_FATAL
    case TimeoutExpired => EXIT_NON_FATAL
    case ConnectionError => EXIT_NON_FATAL
    case OtherException => EXIT_FATAL
  }

  /** Everything the run consults besides the working directory. */
  datatype World = World(kind: ToolKind, outside: Outside, binary: Binary, csv: CsvReader)

  /** The exit code, the directory at the end and the speed tests run. */
  datatype Report = Report(code: int, dir: Dir, runs: seq<Invocation>)

  /** `scan_value` of the region scan, in insertion order. */
  function ScanValues(ipFile: string): Values {
    [("f", ipFile), ("tl", "9999"), ("o", SCAN_CSV), ("url", SCAN_URL), ("tp", "80")]
  }

  /** The retest's parameters: the rebuilt ones without `cfcolo`, reading
      the region file. */
  function RetestValues(values: Values, regionFile: string): Values {
    Put(Pop(values, "cfcolo"), "f", regionFile)
  }

  /** `used_value.get("o", DEFAULT_RESULT_CSV)`. */
  function ResultCsv(values: Values): string {
    Lookup(values, "o").GetOr(DEFAULT_RESULT_CSV)
  }

  /** `used_value.get("f", DEFAULT_CLOUDFLARE_IP_FILE)`. */
  function IpFile(values: Values): string {
    Lookup(values, "f").GetOr(DEFAULT_CLOUDFLARE_IP_FILE)
  }

  /** `used_value.get("cfcolo", "").strip()`. */
  function Cfcolo(values: Values): string {
    Strip(Lookup(values, "cfcolo").GetOr(""))
  }

  /** Removing the region file, then the scan table. */
  function Cleanup(d: Dir, regionFile: string): Result<Dir, Exc> {
    match Remove(d, regionFile)
    case Err(e) => Err(e)
    case Ok(d1) => Remove(d1, SCAN_CSV)
  }

  /** One speed test with the resolved parameters, then the proxy list. */
  function SinglePassSpec(w: World, exec: string, values: Values, flags: set<string>, d: Dir): Report {
    var inv := Invocation(exec, values, flags);
    var run := w.binary(inv, d);
    var d1 := RunEffect(run, d);
    if !Succeeded(run) then Report(EXIT_NON_FATAL, d1, [inv])
    else Report(EXIT_SUCCESS, GenerateSpec(ResultCsv(values), w.csv, d1).dir, [inv])
  }

  /** The retest on the region file and everything after it. */
  function RetestSpec(w: World, exec: string, scan: Invocation, regionFile: string,
                      values: Values, flags: set<string>, d: Dir): Report {
    var retest := Invocation(exec, RetestValues(values, regionFile), flags);
    var run := w.binary(retest, d);
    var d1 := RunEffect(run, d);
    match Cleanup(d1, regionFile)
    case Err(e) => Report(Classify(e), d1, [scan, retest])
    case Ok(d2) =>
      if !Succeeded(run) then Report(EXIT_NON_FATAL, d2, [scan, retest])
      else Report(EXIT_SUCCESS, GenerateSpec(ResultCsv(retest.values), w.csv, d2).dir, [scan, retest])
  }

  /** The two-phase run: scan every address for its location, keep those in
      the wanted locations, and test only those. */
  function TwoPhaseSpec(w: World, exec: string, cfcolo: string, ipFile: string,
                        values: Values, flags: set<string>, d: Dir): Report {
    var scan := Invocation(exec, ScanValues(ipFile), SCAN_FLAGS);
    var run := w.binary(scan, d);
    var d1 := RunEffect(run, d);
    if !Succeeded(run) then Report(EXIT_NON_FATAL, d1, [scan])
    else
      match ReadCsv(w.csv, SCAN_CSV, d1)
      case Err(e) => Report(Classify(e), d1, [scan])
      case Ok(rows) =>
        var ips := RegionIpsSpec(rows, WantedColos(cfcolo));
        if ips == [] then Report(EXIT_NON_FATAL, if SCAN_CSV in d1 then d1 - {SCAN_CSV} else d1, [scan])
        else
          var regionFile := RegionFile(cfcolo);
          RetestSpec(w, exec, scan, regionFile, values, flags, d1[regionFile := |Join(ips, "\n")|])
  }

  /** `auto_run_test()`. */
  function AutoRunSpec(w: World, d: Dir): Report {
    match EnsureSpec(w.kind, w.outside, d)
    case Err(e) => Report(Classify(e), d, [])
    case Ok(p) =>
      if p.exec.None? then Report(EXIT_FATAL, p.dir, [])
      else TestSpec(w, p.exec.value, p.dir)
  }

  /** The rest of `auto_run_test` once the binary `exec` is in place: the
      parameters, the address list, then one of the two workflows. */
  function TestSpec(w: World, exec: string, d: Dir): Report {
    var env := w.outside.env;
    var values := ResolvedValues(env);
    var flags := ResolvedFlags(env);
    var ipl := IpListSpec("ipv4", IpFile(values), env, w.outside.host.platform, w.outside.net, d);
    if !ipl.ok then Report(EXIT_NON_FATAL, ipl.dir, [])
    else if Cfcolo(values) != "" then TwoPhaseSpec(w, exec, Cfcolo(values), IpFile(values), values, flags, ipl.dir)
    else SinglePassSpec(w, exec, values, flags, ipl.dir)
  }

  /** The single pass, step by step. */
  method SinglePass(w: World, exec: string, values: Values, flags: set<string>, d: Dir) returns (r: Report)
    ensures r == SinglePassSpec(w, exec, values, flags, d)
  {
    var ok, _, dir := RunSpeedTest(exec, values, flags, w.binary, d);
    var inv := Invocation(exec, values, flags);
    if !ok {
      return Report(EXIT_NON_FATAL, dir, [inv]);
    }
    var g := GenerateProxyList(ResultCsv(values), w.csv, dir);
    r := Report(EXIT_SUCCESS, g.dir, [inv]);
  }

  /** The region scan, the filter, the retest and the clean-up, step by step. */
  method TwoPhase(w: World, exec: string, cfcolo: string, ipFile: string, d: Dir) returns (r: Report)
    ensures r == TwoPhaseSpec(w, exec, cfcolo, ipFile, ResolvedValues(w.outside.env), ResolvedFlags(w.outside.env), d)
  {
    var scan := Invocation(exec, ScanValues(ipFile), SCAN_FLAGS);
    var ok, _, dir := RunSpeedTest(exec, ScanValues(ipFile), SCAN_FLAGS, w.binary, d);
    if !ok {
      return Report(EXIT_NON_FATAL, dir, [scan]);
    }
    var read := ReadCsv(w.csv, SCAN_CSV, dir);
    if read.Err? {
      return Report(Classify(read.error), dir, [scan]);
    }
    var ips := RegionIps(read.value, WantedColos(cfcolo));
    if ips == [] {
      if SCAN_CSV in dir {
        dir := dir - {SCAN_CSV};
      }
      return Report(EXIT_NON_FATAL, dir, [scan]);
    }
    var regionFile := RegionFile(cfcolo);
    dir := dir[regionFile := |Join(ips, "\n")|];
    r := Retest(w, exec, scan, regionFile, dir);
  }

  /** The retest on the region file and the clean-up, step by step. */
  method Retest(w: World, exec: string, scan: Invocation, regionFile: string, d: Dir) returns (r: Report)
    ensures r == RetestSpec(w, exec, scan, regionFile, ResolvedValues(w.outside.env), ResolvedFlags(w.outside.env), d)
  {
    var dir := d;
    var values, flags := BuildParams(w.outside.env);
    values := Pop(values, "cfcolo");
    values := Put(values, "f", regionFile);
    var retest := Invocation(exec, values, flags);
    var passed, _, after := RunSpeedTest(exec, values, flags, w.binary, dir);
    dir := after;
    var removed := Remove(dir, regionFile);
    if removed.Err? {
      return Report(Classify(removed.error), dir, [scan, retest]);
    }
    removed := Remove(removed.value, SCAN_CSV);
    if removed.Err? {
      return Report(Classify(removed.error), dir, [scan, retest]);
    }
    dir := removed.value;
    if !passed {
      return Report(EXIT_NON_FATAL, dir, [scan, retest]);
    }
    var g := GenerateProxyList(ResultCsv(values), w.csv, dir);
    r := Report(EXIT_SUCCESS, g.dir, [scan, retest]);
  }

  /** `auto_run_test()`, step by step. */
  method AutoRunTest(w: World, d: Dir) returns (r: Report)
    ensures r == AutoRunSpec(w, d)
  {
    var provisioned := EnsureBinary(w.kind, w.outside, d);
    if provisioned.Err? {
      return Report(Classify(provisioned.error), d, []);
    }
    var p := provisioned.value;
    if p.exec.None? {
      return Report(EXIT_FATAL, p.dir, []);
    }
    r := RunTests(w, p.exec.value, p.dir);
  }

  /** The rest of `auto_run_test` once the binary is in place. */
  method RunTests(w: World, exec: string, d: Dir) returns (r: Report)
    ensures r == TestSpec(w, exec, d)
  {
    var env := w.outside.env;
    var values, flags := BuildParams(env);
    var cfcolo := Cfcolo(values);
    var ipFile := IpFile(values);
    var ipl := DownloadCloudflareIps("ipv4", ipFile, env, w.outside.host.platform, w.outside.net, d);
    if !ipl.ok {
      return Report(EXIT_NON_FATAL, ipl.dir, []);
    }
    if cfcolo != "" {
      r := TwoPhase(w, exec, cfcolo, ipFile, ipl.dir);
    } else {
      r := SinglePass(w, exec, values, flags, ipl.dir);
    }
  }

  // ----- properties -----

  /** The two scratch files and the proxy list have different names, so the
      clean-up never removes the list and removing one leaves the other. */
  lemma RegionFileNames(cfcolo: string)
    ensures RegionFile(cfcolo) != SCAN_CSV && RegionFile(cfcolo) != OUTPUT_TXT
  {
    var rf := RegionFile(cfcolo);
    assert rf[|rf| - 3..] == "txt";
    assert SCAN_CSV[|SCAN_CSV| - 3..] == "csv";
    assert rf[0] == 'r' && OUTPUT_TXT[0] == 'c';
  }

  /** With both scratch files present, the clean-up removes both and nothing else. */
  lemma CleanupRemovesBoth(d: Dir, regionFile: string)
    requires regionFile in d && SCAN_CSV in d && regionFile != SCAN_CSV
    ensures Cleanup(d, regionFile).Ok?
    ensures var d2 := Cleanup(d, regionFile).value;
      regionFile !in d2 && SCAN_CSV !in d2 && d2 - {regionFile, SCAN_CSV} == d - {regionFile, SCAN_CSV}
  {
    var d1 := Remove(d, regionFile).value;
    assert SCAN_CSV in d1;
    var d2 := Remove(d1, SCAN_CSV).value;
    assert d2 - {regionFile, SCAN_CSV} == (d2 - {SCAN_CSV}) - {regionFile};
    assert d - {regionFile, SCAN_CSV} == (d - {regionFile}) - {SCAN_CSV};
  }

  /** A run of the binary adds or overwrites files but removes none. */
  lemma RunKeepsFiles(run: Run, d: Dir, name: string)
    requires name in d
    ensures name in RunEffect(run, d)
  {
  }

  /** The region scan reads the address file, writes `region_scan.csv`,
      waits up to 9999 ms, probes port 80 at the trace address, and uses the
      download test and HTTP probing switches. */
  lemma ScanParameters(ipFile: string)
    ensures var vs := ScanValues(ipFile);
      && Keys(vs) == ["f", "tl", "o", "url", "tp"]
      && Lookup(vs, "f") == Some(ipFile) && Lookup(vs, "tl") == Some("9999")
      && Lookup(vs, "o") == Some(SCAN_CSV) && Lookup(vs, "url") == Some(SCAN_URL)
      && Lookup(vs, "tp") == Some("80")
      && ResultCsv(vs) == SCAN_CSV
  {
    var vs := ScanValues(ipFile);
    assert "f"[0] == 'f' && "tl"[0] == 't' && "o"[0] == 'o' && "url"[0] == 'u' && "tp"[0] == 't';
    assert "tl"[1] == 'l' && "tp"[1] == 'p';
    var v1 := vs[1..];
    var v2 := v1[1..];
    var v3 := v2[1..];
    var v4 := v3[1..];
    assert v4 == [("tp", "80")] && v4[1..] == [];
    assert Lookup(v3, "tp") == Some("80");
    assert Lookup(v2, "tp") == Some("80") && Lookup(v2, "url") == Some(SCAN_URL);
    assert Lookup(v1, "o") == Some(SCAN_CSV);
    assert Keys(v4) == ["tp"];
    assert Keys(v3) == ["url", "tp"];
    assert Keys(v2) == ["o", "url", "tp"];
    assert Keys(v1) == ["tl", "o", "url", "tp"];
  }

  /** The retest uses the rebuilt parameters with `cfcolo` dropped and `f`
      pointing at the region file; every other parameter is as built. */
  lemma RetestParameters(values: Values, regionFile: string, k: string)
    ensures var rv := RetestValues(values, regionFile);
      && Lookup(rv, "cfcolo") == None
      && Lookup(rv, "f") == Some(regionFile)
      && (k != "cfcolo" && k != "f" ==> Lookup(rv, k) == Lookup(values, k))
  {
    var popped := Pop(values, "cfcolo");
    PutLookup(popped, "f", regionFile, "cfcolo");
    PutLookup(popped, "f", regionFile, "f");
    PopLookup(values, "cfcolo", "cfcolo");
    PutLookup(popped, "f", regionFile, k);
    PopLookup(values, "cfcolo", k);
  }

  /** The single pass: exit 0 exactly when the test succeeded, whether or
      not a proxy list could be made; after a failed test the files are as
      the binary left them. */
  lemma SinglePassOutcome(w: World, exec: string, values: Values, flags: set<string>, d: Dir)
    ensures var inv := Invocation(exec, values, flags);
      var run := w.binary(inv, d);
      var r := SinglePassSpec(w, exec, values, flags, d);
      && r.runs == [inv]
      && (r.code == EXIT_SUCCESS <==> Succeeded(run))
      && (r.code == EXIT_NON_FATAL <==> !Succeeded(run))
      && (!Succeeded(run) ==> r.dir == RunEffect(run, d))
      && (Succeeded(run) ==> r.dir - {OUTPUT_TXT} == RunEffect(run, d) - {OUTPUT_TXT})
  {
    var inv := Invocation(exec, values, flags);
    GenerateOutcome(ResultCsv(values), w.csv, RunEffect(w.binary(inv, d), d));
  }

  /** The clean-up after the retest cannot fail as long as the binary
      removes no file, which a `Run` cannot express: both scratch files are
      still there. */
  lemma RetestCleanup(run: Run, cfcolo: string, d: Dir)
    requires RegionFile(cfcolo) in d && SCAN_CSV in d
    ensures var rf := RegionFile(cfcolo);
      var d1 := RunEffect(run, d);
      && Cleanup(d1, rf).Ok?
      && rf !in Cleanup(d1, rf).value && SCAN_CSV !in Cleanup(d1, rf).value
      && Cleanup(d1, rf).value - {rf, SCAN_CSV} == d1 - {rf, SCAN_CSV}
  {
    RegionFileNames(cfcolo);
    RunKeepsFiles(run, d, RegionFile(cfcolo));
    RunKeepsFiles(run, d, SCAN_CSV);
    CleanupRemovesBoth(RunEffect(run, d), RegionFile(cfcolo));
  }

  /** The retest, once the region file is written: the exit code is 0
      exactly when the retest succeeded and 2 otherwise. */
  lemma RetestCode(w: World, exec: string, scan: Invocation, cfcolo: string,
                   values: Values, flags: set<string>, d: Dir)
    requires RegionFile(cfcolo) in d && SCAN_CSV in d
    ensures var rf := RegionFile(cfcolo);
      var retest := Invocation(exec, RetestValues(values, rf), flags);
      var run := w.binary(retest, d);
      var r := RetestSpec(w, exec, scan, rf, values, flags, d);
      && r.runs == [scan, retest]
      && (r.code == EXIT_SUCCESS <==> Succeeded(run))
      && (r.code == EXIT_NON_FATAL <==> !Succeeded(run))
  {
    var rf := RegionFile(cfcolo);
    var retest := Invocation(exec, RetestValues(values, rf), flags);
    RetestCleanup(w.binary(retest, d), cfcolo, d);
  }

  /** After the retest the directory is the cleaned-up one, with the proxy
      list written over it when the retest succeeded. */
  lemma RetestDir(w: World, exec: string, scan: Invocation, rf: string,
                  values: Values, flags: set<string>, d: Dir)
    requires var retest := Invocation(exec, RetestValues(values, rf), flags);
      Cleanup(RunEffect(w.binary(retest, d), d), rf).Ok?
    ensures var retest := Invocation(exec, RetestValues(values, rf), flags);
      var run := w.binary(retest, d);
      var d2 := Cleanup(RunEffect(run, d), rf).value;
      RetestSpec(w, exec, scan, rf, values, flags, d).dir ==
        if Succeeded(run) then GenerateSpec(ResultCsv(retest.values), w.csv, d2).dir else d2
  {
  }

  /** After the retest both scratch files are gone, and besides them only
      the proxy list may have changed since the binary finished. */
  lemma RetestFiles(w: World, exec: string, scan: Invocation, cfcolo: string,
                    values: Values, flags: set<string>, d: Dir)
    requires RegionFile(cfcolo) in d && SCAN_CSV in d
    ensures var rf := RegionFile(cfcolo);
      var run := w.binary(Invocation(exec, RetestValues(values, rf), flags), d);
      var r := RetestSpec(w, exec, scan, rf, values, flags, d);
      && rf !in r.dir && SCAN_CSV !in r.dir
      && r.dir - {rf, SCAN_CSV, OUTPUT_TXT} == RunEffect(run, d) - {rf, SCAN_CSV, OUTPUT_TXT}
  {
    var rf := RegionFile(cfcolo);
    RegionFileNames(cfcolo);
    var retest := Invocation(exec, RetestValues(values, rf), flags);
    var run := w.binary(retest, d);
    var d1 := RunEffect(run, d);
    RetestCleanup(run, cfcolo, d);
    var d2 := Cleanup(d1, rf).value;
    RetestDir(w, exec, scan, rf, values, flags, d);
    if Succeeded(run) {
      GenerateOutcome(ResultCsv(retest.values), w.csv, d2);
      AgreeChain(d1, d2, GenerateSpec(ResultCsv(retest.values), w.csv, d2).dir, rf, SCAN_CSV, OUTPUT_TXT);
    } else {
      AgreeWider(d2, d1, rf, SCAN_CSV, OUTPUT_TXT);
    }
  }

  /** The two-phase run. A failed scan gives 2 and leaves the files as the
      binary left them; an unreadable scan table raises a non-network
      exception, which the top-level handler turns into 1; no address in the wanted locations gives 2, removes
      `region_scan.csv` and writes no region file; otherwise the retest runs
      and both scratch files are gone at the end. The first run is always
      the scan with its fixed parameters. */
  lemma TwoPhaseOutcome(w: World, exec: string, cfcolo: string, ipFile: string,
                        values: Values, flags: set<string>, d: Dir)
    ensures var scan := Invocation(exec, ScanValues(ipFile), SCAN_FLAGS);
      var run := w.binary(scan, d);
      var d1 := RunEffect(run, d);
      var r := TwoPhaseSpec(w, exec, cfcolo, ipFile, values, flags, d);
      var rf := RegionFile(cfcolo);
      && 1 <= |r.runs| <= 2 && r.runs[0] == scan
      && (!Succeeded(run) ==> r == Report(EXIT_NON_FATAL, d1, [scan]))
      && (Succeeded(run) && ReadCsv(w.csv, SCAN_CSV, d1).Err? ==>
            r == Report(EXIT_FATAL, d1, [scan]))
      && (Succeeded(run) && ReadCsv(w.csv, SCAN_CSV, d1).Ok?
          && RegionIpsSpec(ReadCsv(w.csv, SCAN_CSV, d1).value, WantedColos(cfcolo)) == [] ==>
            r.code == EXIT_NON_FATAL && r.runs == [scan] && r.dir == d1 - {SCAN_CSV}
            && (rf in r.dir <==> rf in d1))
      && (|r.runs| == 2 ==>
            r.runs[1] == Invocation(exec, RetestValues(values, rf), flags)
            && (r.code == EXIT_SUCCESS || r.code == EXIT_NON_FATAL)
            && rf !in r.dir && SCAN_CSV !in r.dir)
  {
    var scan := Invocation(exec, ScanValues(ipFile), SCAN_FLAGS);
    var run := w.binary(scan, d);
    var d1 := RunEffect(run, d);
    var rf := RegionFile(cfcolo);
    RegionFileNames(cfcolo);
    if Succeeded(run) && ReadCsv(w.csv, SCAN_CSV, d1).Ok? {
      var ips := RegionIpsSpec(ReadCsv(w.csv, SCAN_CSV, d1).value, WantedColos(cfcolo));
      if ips != [] {
        var d2 := d1[rf := |Join(ips, "\n")|];
        assert SCAN_CSV in d2;
        RetestCode(w, exec, scan, cfcolo, values, flags, d2);
        RetestFiles(w, exec, scan, cfcolo, values, flags, d2);
      }
    }
  }

  /** The single-pass or the two-phase workflow is chosen by whether the
      environment gives `cfcolo` a non-blank value. */
  lemma CfcoloChoice(env: Env)
    ensures var cfcolo := Cfcolo(ResolvedValues(env));
      && (cfcolo != "" <==> ResolveValue(env, "cfcolo").Some?)
      && (cfcolo != "" ==> cfcolo == ResolveValue(env, "cfcolo").value)
  {
    ValueParamsDistinct();
    assert "cfcolo" in VALUE_PARAMS;
    ResolveAllLookup(VALUE_PARAMS, env, "cfcolo");
    var v := ResolveValue(env, "cfcolo");
    if v.Some? {
      var raw := if "cfcolo" in env && env["cfcolo"] != "" then Some(env["cfcolo"]) else Lookup(CUSTOM_PARAMS, "cfcolo");
      StripIdempotent(raw.value);
    }
  }

  /** An unidentifiable platform is fatal: nothing runs and nothing changes. */
  lemma ProvisionFails(w: World, d: Dir)
    requires EnsureSpec(w.kind, w.outside, d).Err?
    ensures AutoRunSpec(w, d) == Report(EXIT_FATAL, d, [])
  {
    EnsureErrors(w.kind, w.outside, d);
  }

  /** A tool that could not be found, downloaded or unpacked is fatal too. */
  lemma ProvisionMissing(w: World, d: Dir)
    requires EnsureSpec(w.kind, w.outside, d).Ok? && EnsureSpec(w.kind, w.outside, d).value.exec.None?
    ensures AutoRunSpec(w, d) == Report(EXIT_FATAL, EnsureSpec(w.kind, w.outside, d).value.dir, [])
  {
  }

  /** With the binary in place the tests follow, in the directory the
      provisioning left. */
  lemma ProvisionReady(w: World, d: Dir)
    requires EnsureSpec(w.kind, w.outside, d).Ok? && EnsureSpec(w.kind, w.outside, d).value.exec.Some?
    ensures var p := EnsureSpec(w.kind, w.outside, d).value;
      AutoRunSpec(w, d) == TestSpec(w, p.exec.value, p.dir)
  {
  }

  /** Once the binary is in place: a failed address-list refresh gives 2,
      runs nothing and leaves no list behind; then the workflow follows
      `cfcolo`. */
  lemma TestRouting(w: World, exec: string, d: Dir)
    ensures var r := TestSpec(w, exec, d);
      var env := w.outside.env;
      var values := ResolvedValues(env);
      var ipl := IpListSpec("ipv4", IpFile(values), env, w.outside.host.platform, w.outside.net, d);
      && (!ipl.ok ==> r == Report(EXIT_NON_FATAL, ipl.dir, []) && IpFile(values) !in r.dir)
      && (ipl.ok && ResolveValue(env, "cfcolo").Some? ==>
            r == TwoPhaseSpec(w, exec, ResolveValue(env, "cfcolo").value, IpFile(values),
                              values, ResolvedFlags(env), ipl.dir))
      && (ipl.ok && ResolveValue(env, "cfcolo").None? ==>
            r == SinglePassSpec(w, exec, values, ResolvedFlags(env), ipl.dir))
  {
    var env := w.outside.env;
    var values := ResolvedValues(env);
    CfcoloChoice(env);
    IpListOutcome("ipv4", IpFile(values), env, w.outside.host.platform, w.outside.net, d);
  }

  /** The two-phase run ends with 0, 1 or 2 after at least the scan. */
  lemma TwoPhaseCodes(w: World, exec: string, cfcolo: string, ipFile: string,
                      values: Values, flags: set<string>, d: Dir)
    ensures var r := TwoPhaseSpec(w, exec, cfcolo, ipFile, values, flags, d);
      (r.code == EXIT_SUCCESS || r.code == EXIT_NON_FATAL || r.code == EXIT_FATAL) && r.runs != []
  {
    TwoPhaseOutcome(w, exec, cfcolo, ipFile, values, flags, d);
  }

  /** Once the binary is in place, the run ends with 0, 1 or 2, and ends
      with 0 only after asking the binary for a speed test. */
  lemma TestCodes(w: World, exec: string, d: Dir)
    ensures var r := TestSpec(w, exec, d);
      && (r.code == EXIT_SUCCESS || r.code == EXIT_NON_FATAL || r.code == EXIT_FATAL)
      && (r.runs == [] ==> r.code != EXIT_SUCCESS)
  {
    var env := w.outside.env;
    var values := ResolvedValues(env);
    var ipl := IpListSpec("ipv4", IpFile(values), env, w.outside.host.platform, w.outside.net, d);
    if ipl.ok {
      if Cfcolo(values) != "" {
        TwoPhaseCodes(w, exec, Cfcolo(values), IpFile(values), values, ResolvedFlags(env), ipl.dir);
      } else {
        SinglePassOutcome(w, exec, values, ResolvedFlags(env), ipl.dir);
      }
    }
  }

  /** Every run ends with exit code 0, 1 or 2, and a run that never asked
      the binary for a speed test does not end with 0. */
  lemma ExitCodes(w: World, d: Dir)
    ensures var r := AutoRunSpec(w, d);
      && r.code in {EXIT_SUCCESS, EXIT_FATAL, EXIT_NON_FATAL}
      && (r.runs == [] ==> r.code != EXIT_SUCCESS)
  {
    var e := EnsureSpec(w.kind, w.outside, d);
    if e.Err? {
      ProvisionFails(w, d);
    } else if e.value.exec.None? {
      ProvisionMissing(w, d);
    } else {
      ProvisionReady(w, d);
      TestCodes(w, e.value.exec.value, e.value.dir);
    }
  }
}
