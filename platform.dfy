/** Platform identification and the release-archive naming that depends on
    it (`get_system_info`, `_get_tool_filename`, and the executable name
    derived in `ensure_speedtest_binary`). */
module Platform {
  import opened Wrappers
  import opened Text
  import opened Files

  /** What running `uname -m` produced: its output, a non-zero exit
      (`CalledProcessError`, which falls back to the pointer width), or a
      failure to start the program (an `OSError`, which propagates). */
  datatype Uname = Printed(out: string) | ExitFailed | NotRunnable

  /** The host as the script sees it: `sys.platform`, the `uname -m` result,
      and whether `sys.maxsize > 2**32` (a 64-bit interpreter). */
  datatype Host = Host(platform: string, uname: Uname, wide: bool)

  /** The platform descriptor: OS family and architecture. */
  datatype System = System(os: string, arch: string)

  /** The two release channels the script can fetch from (`TOOL_TYPE`). */
  datatype ToolKind = Official | Proxy

  const TOOL_TYPE: ToolKind := Proxy

  /** The OS family named by a `sys.platform` value, if it is supported. */
  function OsFamily(platform: string): (r: Option<string>)
    ensures r.Some? ==> r.value in {"linux", "win", "mac"}
  {
    if StartsWith(platform, "linux") then Some("linux")
    else if StartsWith(platform, "win") then Some("win")
    else if StartsWith(platform, "darwin") then Some("mac")
    else None
  }

  function PointerWidthArch(wide: bool): string {
    if wide then "amd64" else "386"
  }

  /** Architecture on Linux: the kernel's answer, with the two common machine
      names renamed, or the pointer width when `uname` exits with an error. */
  function LinuxArch(u: Uname, wide: bool): Result<string, Exc> {
    match u
    case Printed(out) =>
      var m := Strip(out);
      Ok(if m == "aarch64" then "arm64" else if m == "x86_64" then "amd64" else m)
    case ExitFailed => Ok(PointerWidthArch(wide))
    case NotRunnable => Err(OtherException)
  }

  /** Architecture on macOS: `arm64` exactly when the kernel says so. */
  function MacArch(u: Uname, wide: bool): Result<string, Exc> {
    match u
    case Printed(out) => Ok(if Strip(out) == "arm64" then "arm64" else "amd64")
    case ExitFailed => Ok(PointerWidthArch(wide))
    case NotRunnable => Err(OtherException)
  }

  /** `get_system_info()`: an unsupported platform raises `ValueError`, and
      so does nothing else but a `uname` that cannot be started. */
  function GetSystemInfo(h: Host): (r: Result<System, Exc>)
    ensures r.Ok? ==> OsFamily(h.platform) == Some(r.value.os)
    ensures r.Err? ==> r.error == OtherException
    ensures r.Err? <==> OsFamily(h.platform).None? || (OsFamily(h.platform) != Some("win") && h.uname.NotRunnable?)
    ensures r.Ok? && r.value.os == "win" ==> r.value.arch == PointerWidthArch(h.wide)
    ensures r.Ok? && r.value.os == "mac" ==> r.value.arch in {"arm64", "amd64", "386"}
    ensures r.Ok? && r.value.os == "mac" && h.uname.Printed? ==>
      r.value.arch == (if Strip(h.uname.out) == "arm64" then "arm64" else "amd64")
    ensures r.Ok? && h.uname.ExitFailed? ==> r.value.arch == PointerWidthArch(h.wide)
  {
    match OsFamily(h.platform)
    case None => Err(OtherException)
    case Some(os) =>
      var arch :=
        if os == "linux" then LinuxArch(h.uname, h.wide)
        else if os == "mac" then MacArch(h.uname, h.wide)
        else Ok(PointerWidthArch(h.wide));
      match arch
      case Err(e) => Err(e)
      case Ok(a) => Ok(System(os, a))
  }

  /** Whenever the kernel answers, the interpreter's pointer width plays no
      part: an emulated 32-bit interpreter still reports the real machine. */
  lemma KernelAnswerWins(platform: string, out: string)
    requires OsFamily(platform) != Some("win")
    ensures GetSystemInfo(Host(platform, Printed(out), true)) == GetSystemInfo(Host(platform, Printed(out), false))
  {
  }

  /** The Linux machine names the kernel reports map onto release names. */
  lemma LinuxMachineNames(platform: string, out: string, wide: bool)
    requires OsFamily(platform) == Some("linux")
    ensures Strip(out) == "aarch64" ==> GetSystemInfo(Host(platform, Printed(out), wide)) == Ok(System("linux", "arm64"))
    ensures Strip(out) == "x86_64" ==> GetSystemInfo(Host(platform, Printed(out), wide)) == Ok(System("linux", "amd64"))
    ensures Strip(out) !in {"aarch64", "x86_64"} ==> GetSystemInfo(Host(platform, Printed(out), wide)) == Ok(System("linux", Strip(out)))
  {
  }

  function BaseName(kind: ToolKind): string {
    if kind == Official then "cfst" else "CloudflareST_proxy"
  }

  function ArchiveExt(os: string): string {
    if os in {"win", "mac"} then "zip" else "tar.gz"
  }

  /** `{base}_{os}_{arch}`, the part every artifact name shares. */
  function Stem(kind: ToolKind, sys: System): string {
    BaseName(kind) + "_" + sys.os + "_" + sys.arch
  }

  /** `_get_tool_filename()`: the release archive for this platform. */
  function ToolFilename(kind: ToolKind, sys: System): string {
    Stem(kind, sys) + "." + ArchiveExt(sys.os)
  }

  /** The executable name: the archive name with every `.zip` and then every
      `.tar.gz` removed, plus `.exe` when `sys.platform == "win32"`. */
  function ExecName(archive: string, platform: string): string {
    ReplaceAll(ReplaceAll(archive, ".zip", ""), ".tar.gz", "")
      + (if platform == "win32" then ".exe" else "")
  }

  /** The archive is a zip exactly on Windows and macOS, a gzipped tar
      otherwise. */
  lemma ArchiveFormat(kind: ToolKind, sys: System)
    ensures EndsWith(ToolFilename(kind, sys), ".zip") <==> sys.os in {"win", "mac"}
    ensures EndsWith(ToolFilename(kind, sys), ".tar.gz") <==> sys.os !in {"win", "mac"}
  {
    var name := ToolFilename(kind, sys);
    var stem := Stem(kind, sys);
    if sys.os in {"win", "mac"} {
      assert name == stem + ".zip";
      assert name[|name| - 1] == 'p';
    } else {
      assert name == stem + ".tar.gz";
      assert name[|name| - 1] == 'z';
    }
  }

  /** For an architecture without a dot (every name the mapping above fixes),
      the executable name is the archive's stem, with `.exe` on win32. */
  lemma ExecNameIsStem(kind: ToolKind, sys: System, platform: string)
    requires sys.os in {"linux", "win", "mac"} && '.' !in sys.arch
    ensures ExecName(ToolFilename(kind, sys), platform)
            == Stem(kind, sys) + (if platform == "win32" then ".exe" else "")
  {
    var stem := Stem(kind, sys);
    StemHasNoDot(kind, sys);
    if sys.os in {"win", "mac"} {
      assert ToolFilename(kind, sys) == stem + ".zip";
      ZipSuffixRemoved(stem);
    } else {
      assert ToolFilename(kind, sys) == stem + ".tar.gz";
      TarSuffixRemoved(stem);
    }
  }

  lemma ZipSuffixRemoved(stem: string)
    requires '.' !in stem
    ensures ReplaceAll(ReplaceAll(stem + ".zip", ".zip", ""), ".tar.gz", "") == stem
  {
    SuffixRemovals();
    ReplaceAllSkipsHead(stem, ".zip", ".zip", "");
    assert stem + "" == stem;
    ReplaceAllAbsent(stem, ".tar.gz", "");
  }

  lemma TarSuffixRemoved(stem: string)
    requires '.' !in stem
    ensures ReplaceAll(ReplaceAll(stem + ".tar.gz", ".zip", ""), ".tar.gz", "") == stem
  {
    SuffixRemovals();
    ReplaceAllSkipsHead(stem, ".tar.gz", ".zip", "");
    ReplaceAllSkipsHead(stem, ".tar.gz", ".tar.gz", "");
    assert stem + "" == stem;
  }

  lemma StemHasNoDot(kind: ToolKind, sys: System)
    requires sys.os in {"linux", "win", "mac"} && '.' !in sys.arch
    ensures '.' !in Stem(kind, sys)
  {
    assert '.' !in BaseName(kind);
    assert '.' !in sys.os;
  }

  /** The two suffix removals on the bare suffixes. */
  lemma SuffixRemovals()
    ensures ReplaceAll(".zip", ".zip", "") == ""
    ensures ReplaceAll(".tar.gz", ".zip", "") == ".tar.gz"
    ensures ReplaceAll(".tar.gz", ".tar.gz", "") == ""
  {
    var tgz := ".tar.gz";
    assert tgz[..4] != ".zip" by { assert tgz[..4][1] == 't'; }
    assert tgz[1..] == "tar" + ".gz";
    ReplaceAllSkipsHead("tar", ".gz", ".zip", "");
    assert ReplaceAll(".gz", ".zip", "") == ".gz";
    assert tgz[..7] == tgz;
    assert ".zip"[..4] == ".zip";
  }

  /** Every architecture `get_system_info` can report except a raw `uname`
      string is dot-free, so the stem rule applies to it. */
  lemma FixedArchesHaveNoDot(h: Host)
    requires GetSystemInfo(h).Ok?
    requires h.uname.Printed? ==> '.' !in Strip(h.uname.out)
    ensures '.' !in GetSystemInfo(h).value.arch
  {
  }
}
