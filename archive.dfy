/** Unpacking the release archive and choosing the executable in it
    (`extract_archive`). The archive library and the `tar` program are an
    oracle that lists and unpacks an archive. */
module Archive {
  import opened Wrappers
  import opened Text
  import opened Files
  import opened Platform

  /** One archive member: its path inside the archive and its size. */
  datatype Member = Member(path: string, size: nat)

  /** The result of unpacking: the member list, or a failure (a bad zip, an
      error part-way through `extractall`, or `tar` exiting with an error)
      together with the members written before it. */
  datatype Listing = Unpacked(members: seq<Member>) | UnpackFailed(written: seq<Member>)

  /** The archive tools, answering for an archive by its name. */
  type Unpack = string -> Listing

  /** The executable chosen (a name relative to the working directory) and
      the directory after unpacking. */
  datatype Extracted = Extracted(exec: Option<string>, dir: Dir)

  /** The member files written into the working directory, later ones
      overwriting earlier ones. */
  function WithMembers(d: Dir, ms: seq<Member>): (r: Dir)
    ensures forall i :: 0 <= i < |ms| ==> ms[i].path in r
    ensures forall name :: name in d ==> name in r
    ensures forall name :: name in r && (forall i :: 0 <= i < |ms| ==> ms[i].path != name) ==> name in d && r[name] == d[name]
    decreases ms
  {
    if ms == [] then d
    else WithMembers(d[ms[0].path := ms[0].size], ms[1..])
  }

  function Paths(ms: seq<Member>): (r: seq<string>)
    ensures |r| == |ms| && forall i :: 0 <= i < |ms| ==> r[i] == ms[i].path
  {
    seq(|ms|, i requires 0 <= i < |ms| => ms[i].path)
  }

  /** `.exe` on Windows, nothing elsewhere. */
  function ExecSuffix(os: string): string {
    if os == "win" then ".exe" else ""
  }

  /** A member the executable can be: right suffix, not macOS metadata. */
  predicate IsCandidate(path: string, suffix: string) {
    EndsWith(path, suffix) && !StartsWith(path, "__MACOSX")
  }

  /** `exec_files`: the candidates, in listing order. */
  function Candidates(paths: seq<string>, suffix: string): seq<string> {
    if paths == [] then []
    else (if IsCandidate(paths[0], suffix) then [paths[0]] else []) + Candidates(paths[1..], suffix)
  }

  /** The last path segment of the first candidate, if there is one. */
  function SelectExec(paths: seq<string>, suffix: string): Option<string> {
    var c := Candidates(paths, suffix);
    if c == [] then None else Some(LastSegment(c[0]))
  }

  /** `extract_archive(archive)`: the suffix picks the tool; any failure,
      including a platform the script cannot identify, gives `None`, and
      whatever was unpacked before the failure stays on disk. */
  function ExtractArchive(archive: string, h: Host, unpack: Unpack, d: Dir): (r: Extracted)
    ensures !EndsWith(archive, ".zip") && !EndsWith(archive, ".tar.gz") ==> r == Extracted(None, d)
    ensures archive !in d ==> r == Extracted(None, d)
    ensures forall name :: name in d ==> name in r.dir
    ensures r.exec.Some? ==> '/' !in r.exec.value
  {
    if !EndsWith(archive, ".zip") && !EndsWith(archive, ".tar.gz") then Extracted(None, d)
    else if archive !in d then Extracted(None, d)
    else
      match unpack(archive)
      case UnpackFailed(written) => Extracted(None, WithMembers(d, written))
      case Unpacked(ms) =>
        var d1 := WithMembers(d, ms);
        match GetSystemInfo(h)
        case Err(_) => Extracted(None, d1)
        case Ok(sys) => Extracted(SelectExec(Paths(ms), ExecSuffix(sys.os)), d1)
  }

  /** The first candidate wins: the chosen name is the last segment of a
      candidate member, and no member before it is a candidate. */
  lemma SelectExecFirst(paths: seq<string>, suffix: string)
    ensures SelectExec(paths, suffix).None? <==> forall i :: 0 <= i < |paths| ==> !IsCandidate(paths[i], suffix)
    ensures SelectExec(paths, suffix).Some? ==>
      exists i :: 0 <= i < |paths| && IsCandidate(paths[i], suffix)
        && (forall j :: 0 <= j < i ==> !IsCandidate(paths[j], suffix))
        && SelectExec(paths, suffix).value == LastSegment(paths[i])
  {
    CandidatesNone(paths, suffix);
    if Candidates(paths, suffix) != [] {
      var i := FirstCandidate(paths, suffix);
    }
  }

  /** There is no candidate exactly when no member is one. */
  lemma {:induction false} CandidatesNone(paths: seq<string>, suffix: string)
    ensures Candidates(paths, suffix) == [] <==> forall i :: 0 <= i < |paths| ==> !IsCandidate(paths[i], suffix)
  {
    if paths != [] {
      CandidatesNone(paths[1..], suffix);
      if !IsCandidate(paths[0], suffix) {
        forall i | 0 < i < |paths| ensures paths[i] == paths[1..][i - 1] {}
      }
    }
  }

  /** The position of the first candidate, the one `Candidates` lists first. */
  lemma {:induction false} FirstCandidate(paths: seq<string>, suffix: string) returns (i: nat)
    requires Candidates(paths, suffix) != []
    ensures i < |paths| && IsCandidate(paths[i], suffix)
    ensures forall j :: 0 <= j < i ==> !IsCandidate(paths[j], suffix)
    ensures Candidates(paths, suffix)[0] == paths[i]
  {
    if IsCandidate(paths[0], suffix) {
      i := 0;
    } else {
      assert Candidates(paths, suffix) == Candidates(paths[1..], suffix);
      var k := FirstCandidate(paths[1..], suffix);
      i := k + 1;
      forall j | 0 < j < i ensures paths[j] == paths[1..][j - 1] {}
    }
  }

  /** Away from Windows every name ends with the empty suffix, so the choice
      is simply the first member outside `__MACOSX`. */
  lemma NonWindowsCandidates(path: string, os: string)
    requires os != "win"
    ensures IsCandidate(path, ExecSuffix(os)) <==> !StartsWith(path, "__MACOSX")
  {
    assert path[|path| - 0..] == "";
  }

  /** A Linux archive whose first member is a top-level binary yields that
      binary, whatever follows it. */
  lemma FirstMemberChosen(name: string, rest: seq<string>)
    requires '/' !in name && !StartsWith(name, "__MACOSX")
    ensures SelectExec([name] + rest, ExecSuffix("linux")) == Some(name)
  {
    NonWindowsCandidates(name, "linux");
    assert ([name] + rest)[1..] == rest;
    SplitNoSep(name, '/');
  }

  /** `extract_archive` returns a name only after a successful unpack on an
      identified platform, and that name is the last segment of the first
      member that ends with the platform's executable suffix and is not
      macOS metadata; with no such member it returns `None`. */
  lemma ExtractArchiveChoice(archive: string, h: Host, unpack: Unpack, d: Dir)
    ensures var r := ExtractArchive(archive, h, unpack, d);
      r.exec.Some? ==>
        && archive in d && unpack(archive).Unpacked? && GetSystemInfo(h).Ok?
        && var ms := unpack(archive).members;
           var suffix := ExecSuffix(GetSystemInfo(h).value.os);
           exists i :: 0 <= i < |ms| && IsCandidate(ms[i].path, suffix)
             && (forall j :: 0 <= j < i ==> !IsCandidate(ms[j].path, suffix))
             && r.exec.value == LastSegment(ms[i].path)
    ensures var r := ExtractArchive(archive, h, unpack, d);
      (EndsWith(archive, ".zip") || EndsWith(archive, ".tar.gz")) && archive in d
        && unpack(archive).Unpacked? && GetSystemInfo(h).Ok? ==>
        var ms := unpack(archive).members;
        (r.exec.None? <==> forall i :: 0 <= i < |ms| ==> !IsCandidate(ms[i].path, ExecSuffix(GetSystemInfo(h).value.os)))
    ensures var r := ExtractArchive(archive, h, unpack, d);
      (EndsWith(archive, ".zip") || EndsWith(archive, ".tar.gz")) && archive in d && unpack(archive).UnpackFailed? ==>
        r.exec.None? && forall i :: 0 <= i < |unpack(archive).written| ==> unpack(archive).written[i].path in r.dir
  {
    if archive in d && unpack(archive).Unpacked? && GetSystemInfo(h).Ok? {
      var ms := unpack(archive).members;
      var paths := Paths(ms);
      SelectExecFirst(paths, ExecSuffix(GetSystemInfo(h).value.os));
    }
  }
}
