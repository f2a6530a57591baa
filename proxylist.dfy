/** Turning the speed-test result table into the proxy list
    (`generate_proxy_list`): one `ip:port#region` line per usable row,
    duplicates dropped, written to `cfst_ips.txt`. */
module ProxyList {
  import opened Wrappers
  import opened Text
  import opened Seqs
  import opened Files

  const DEFAULT_PORT := "443"
  const UNKNOWN_REGION := "未知"
  const OUTPUT_TXT := "cfst_ips.txt"

  /** The address cell, stripped. */
  function RawAddress(row: Row): string {
    Strip(Field(row, "IP 地址", ""))
  }

  /** The port cell, stripped; a missing or empty cell reads as `443`. */
  function PortCell(row: Row): string {
    Strip(Field(row, "端口", DEFAULT_PORT))
  }

  /** The region cell, falling back to the location code, then to `未知`. */
  function RegionCell(row: Row): string {
    Strip(Field(row, "地区", Field(row, "地区码", UNKNOWN_REGION)))
  }

  /** The host and the port before the digit check: an address `h:p`
      gives host `h`, and gives its port `p` only when the port cell is blank. */
  function HostPort(row: Row): (string, string) {
    var ip := RawAddress(row);
    var port := PortCell(row);
    if ip != "" && ':' in ip then (Before(ip, ':'), if port == "" then After(ip, ':') else port)
    else (ip, port)
  }

  /** The port written out: all digits, or `443`. */
  function FinalPort(row: Row): string {
    var port := HostPort(row).1;
    if IsDigits(port) then port else DEFAULT_PORT
  }

  /** `f"{ip}:{port}#{region}"`. */
  function FormatEntry(ip: string, port: string, region: string): string {
    ip + ":" + port + "#" + region
  }

  /** Reading a line back: the host before the first `:`, the port up to the
      next `#`, the region after it. */
  function ParseEntry(line: string): Option<(string, string, string)> {
    if ':' !in line then None
    else
      var rest := After(line, ':');
      if '#' !in rest then None
      else Some((Before(line, ':'), Before(rest, '#'), After(rest, '#')))
  }

  /** The proxy line for one row, if its host is not blank. */
  function ProxyEntry(row: Row): Option<string> {
    var host := HostPort(row).0;
    if host != "" then Some(FormatEntry(host, FinalPort(row), RegionCell(row))) else None
  }

  /** The row's contribution to `proxy_ips`. */
  function Listed(row: Row): seq<string> {
    match ProxyEntry(row)
    case Some(line) => [line]
    case None => []
  }

  /** `proxy_ips`, in row order. */
  function ProxyLines(rows: seq<Row>): seq<string> {
    Gather(rows, Listed)
  }

  /** What `generate_proxy_list` reports, the lines it wrote and the
      directory afterwards. */
  datatype Generated = Generated(ok: bool, lines: seq<string>, dir: Dir)

  /** `generate_proxy_list(result_csv)`: no file, an unreadable file or an
      empty table gives `False` and writes nothing; otherwise the distinct
      lines, in order of first appearance, are joined by newlines into
      `cfst_ips.txt`. File sizes are counted in characters. */
  function GenerateSpec(resultCsv: string, csv: CsvReader, d: Dir): Generated {
    if resultCsv !in d then Generated(false, [], d)
    else
      match ReadCsv(csv, resultCsv, d)
      case Err(_) => Generated(false, [], d)
      case Ok(rows) =>
        if rows == [] then Generated(false, [], d)
        else
          var lines := Dedup(ProxyLines(rows));
          Generated(true, lines, d[OUTPUT_TXT := |Join(lines, "\n")|])
  }

  /** The function itself: the loop over the rows, then `dict.fromkeys`. */
  method GenerateProxyList(resultCsv: string, csv: CsvReader, d: Dir) returns (g: Generated)
    ensures g == GenerateSpec(resultCsv, csv, d)
  {
    if resultCsv !in d {
      return Generated(false, [], d);
    }
    var read := ReadCsv(csv, resultCsv, d);
    if read.Err? {
      return Generated(false, [], d);
    }
    var rows := read.value;
    if rows == [] {
      return Generated(false, [], d);
    }
    var proxyIps := CollectLines(rows);
    var unique := DedupInOrder(proxyIps);
    g := Generated(true, unique, d[OUTPUT_TXT := |Join(unique, "\n")|]);
  }

  /** The loop over the rows building `proxy_ips`. */
  method CollectLines(rows: seq<Row>) returns (proxyIps: seq<string>)
    ensures proxyIps == ProxyLines(rows)
  {
    proxyIps := [];
    for i := 0 to |rows|
      invariant proxyIps == ProxyLines(rows[..i])
    {
      assert rows[..i + 1][..i] == rows[..i];
      var row := rows[i];
      var hp := HostPort(row);
      var port := if IsDigits(hp.1) then hp.1 else DEFAULT_PORT;
      if hp.0 != "" {
        proxyIps := proxyIps + [FormatEntry(hp.0, port, RegionCell(row))];
      }
    }
    assert rows[..|rows|] == rows;
  }

  // ----- properties -----

  /** A line whose host has no `:` and whose port has no `#` reads back as
      its three parts. */
  lemma ParseFormat(ip: string, port: string, region: string)
    requires ':' !in ip && '#' !in port
    ensures ParseEntry(FormatEntry(ip, port, region)) == Some((ip, port, region))
  {
    var line := FormatEntry(ip, port, region);
    var rest := port + "#" + region;
    assert line == ip + [':'] + rest;
    BeforeJoined(ip, ':', rest);
    assert After(line, ':') == rest;
    assert rest == port + ['#'] + region;
    BeforeJoined(port, '#', region);
  }

  /** The host never holds a `:`. */
  lemma HostHasNoColon(row: Row)
    ensures ':' !in HostPort(row).0
  {
  }

  /** An all-digit port holds no `#`. */
  lemma DigitsHaveNoHash(port: string)
    requires IsDigits(port)
    ensures '#' !in port
  {
    forall k | 0 <= k < |port| ensures port[k] != '#' {
      assert '0' <= port[k] <= '9';
    }
  }

  /** Every line written has a non-blank host without `:`, an all-digit
      port and the row's region, and reads back as those parts. */
  lemma EntryShape(row: Row)
    requires ProxyEntry(row).Some?
    ensures var host := HostPort(row).0;
      && host != "" && ':' !in host && IsDigits(FinalPort(row))
      && ParseEntry(ProxyEntry(row).value) == Some((host, FinalPort(row), RegionCell(row)))
  {
    var host := HostPort(row).0;
    var port := FinalPort(row);
    var region := RegionCell(row);
    assert ProxyEntry(row).value == FormatEntry(host, port, region);
    FinalPortDigits(row);
    DigitsHaveNoHash(port);
    HostHasNoColon(row);
    ParseFormat(host, port, region);
  }

  /** The port written out is all digits. */
  lemma FinalPortDigits(row: Row)
    ensures IsDigits(FinalPort(row))
  {
    if !IsDigits(HostPort(row).1) {
      DefaultPortDigits();
    }
  }

  lemma DefaultPortDigits()
    ensures IsDigits(DEFAULT_PORT)
  {
    assert DEFAULT_PORT == ['4', '4', '3'];
  }

  /** A row gives a line exactly when its address, up to any `:`, is not blank. */
  lemma EntryPresent(row: Row)
    ensures ProxyEntry(row).Some? <==> Before(RawAddress(row), ':') != ""
  {
  }

  /** Where the port comes from: a non-blank all-digit port cell is used as
      it is; a missing or empty port cell gives `443` even when the address
      carries a port; and the address's port is used only when the port
      cell is present but blank. */
  lemma PortSource(row: Row)
    ensures IsDigits(PortCell(row)) ==> FinalPort(row) == PortCell(row)
    ensures Field(row, "端口", "") == "" ==> FinalPort(row) == DEFAULT_PORT
    ensures FinalPort(row) != DEFAULT_PORT && FinalPort(row) != PortCell(row) ==>
      PortCell(row) == "" && ':' in RawAddress(row) && FinalPort(row) == After(RawAddress(row), ':')
  {
    PortBeforeCheck(row);
    PortChoice(RawAddress(row), PortCell(row), HostPort(row).1, FinalPort(row));
    if Field(row, "端口", "") == "" {
      MissingPortCell(row);
    }
  }

  /** The port before the digit check is the port cell, unless that is
      blank and the address carries a port. */
  lemma PortBeforeCheck(row: Row)
    ensures var ip := RawAddress(row);
      HostPort(row).1 == if ip != "" && ':' in ip && PortCell(row) == "" then After(ip, ':') else PortCell(row)
  {
  }

  /** The port rule on the stripped address `ip` and port cell `port`, with
      `p` the port before the digit check and `final` the one written. */
  lemma PortChoice(ip: string, port: string, p: string, final: string)
    requires p == if ip != "" && ':' in ip && port == "" then After(ip, ':') else port
    requires final == if IsDigits(p) then p else DEFAULT_PORT
    ensures IsDigits(port) ==> final == port
    ensures port == DEFAULT_PORT ==> final == DEFAULT_PORT
    ensures final != DEFAULT_PORT && final != port ==> port == "" && ':' in ip && final == After(ip, ':')
  {
    DefaultPortDigits();
  }

  /** A missing or empty port cell reads as `443`. */
  lemma MissingPortCell(row: Row)
    requires Field(row, "端口", "") == ""
    ensures PortCell(row) == DEFAULT_PORT
  {
    StripUnchanged(DEFAULT_PORT);
  }

  /** The region falls back to the location code and then to `未知`. */
  lemma RegionFallback(row: Row)
    ensures Field(row, "地区", "") == "" && Field(row, "地区码", "") == "" ==> RegionCell(row) == UNKNOWN_REGION
    ensures Field(row, "地区", "") == "" && Field(row, "地区码", "") != "" ==> RegionCell(row) == Strip(row["地区码"])
    ensures Field(row, "地区", "") != "" ==> RegionCell(row) == Strip(row["地区"])
  {
    StripUnchanged(UNKNOWN_REGION);
  }

  /** A row's contribution is its line, if any. */
  lemma ListedEntry(row: Row, v: string)
    ensures v in Listed(row) <==> ProxyEntry(row) == Some(v)
  {
  }

  /** The lines come from the rows, one per row with a host. */
  lemma ProxyLinesFrom(rows: seq<Row>)
    ensures forall k :: 0 <= k < |ProxyLines(rows)| ==>
      exists i :: 0 <= i < |rows| && ProxyEntry(rows[i]) == Some(ProxyLines(rows)[k])
    ensures forall i :: 0 <= i < |rows| && ProxyEntry(rows[i]).Some? ==> ProxyEntry(rows[i]).value in ProxyLines(rows)
  {
    var all := ProxyLines(rows);
    GatherFrom(rows, Listed);
    forall k | 0 <= k < |all|
      ensures exists i :: 0 <= i < |rows| && ProxyEntry(rows[i]) == Some(all[k])
    {
      var i :| 0 <= i < |rows| && all[k] in Listed(rows[i]);
      ListedEntry(rows[i], all[k]);
    }
    GatherContains(rows, Listed);
    forall i | 0 <= i < |rows| && ProxyEntry(rows[i]).Some?
      ensures ProxyEntry(rows[i]).value in all
    {
      ListedEntry(rows[i], ProxyEntry(rows[i]).value);
    }
  }

  /** `generate_proxy_list` succeeds exactly when the table exists, reads and
      has rows. On success only `cfst_ips.txt` changes; otherwise nothing
      changes and nothing is written. */
  lemma GenerateOutcome(resultCsv: string, csv: CsvReader, d: Dir)
    ensures var g := GenerateSpec(resultCsv, csv, d);
      && (g.ok <==> resultCsv in d && csv(resultCsv).Some? && csv(resultCsv).value != [])
      && (!g.ok ==> g.dir == d && g.lines == [])
      && (g.ok ==> OUTPUT_TXT in g.dir && g.dir - {OUTPUT_TXT} == d - {OUTPUT_TXT})
  {
  }

  /** The de-duplicated lines have no repeats, every one is the line of
      some row, and every row's line is among them. */
  lemma DistinctLines(rows: seq<Row>)
    ensures var lines := Dedup(ProxyLines(rows));
      && NoDup(lines)
      && (forall k :: 0 <= k < |lines| ==> exists i :: 0 <= i < |rows| && ProxyEntry(rows[i]) == Some(lines[k]))
      && (forall i :: 0 <= i < |rows| && ProxyEntry(rows[i]).Some? ==> ProxyEntry(rows[i]).value in lines)
  {
    ProxyLinesFrom(rows);
    DedupSources(rows, ProxyLines(rows), ProxyEntry);
  }

  /** De-duplicating lines that come from rows through `entry` keeps them
      coming from the rows, and keeps every row's line. */
  lemma DedupSources(rows: seq<Row>, all: seq<string>, entry: Row -> Option<string>)
    requires forall k :: 0 <= k < |all| ==> exists i :: 0 <= i < |rows| && entry(rows[i]) == Some(all[k])
    requires forall i :: 0 <= i < |rows| && entry(rows[i]).Some? ==> entry(rows[i]).value in all
    ensures var lines := Dedup(all);
      && NoDup(lines)
      && (forall k :: 0 <= k < |lines| ==> exists i :: 0 <= i < |rows| && entry(rows[i]) == Some(lines[k]))
      && (forall i :: 0 <= i < |rows| && entry(rows[i]).Some? ==> entry(rows[i]).value in lines)
  {
    var lines := Dedup(all);
    DedupMembers(all);
    forall k | 0 <= k < |lines|
      ensures exists i :: 0 <= i < |rows| && entry(rows[i]) == Some(lines[k])
    {
      assert lines[k] in all;
      var j :| 0 <= j < |all| && all[j] == lines[k];
      var i :| 0 <= i < |rows| && entry(rows[i]) == Some(all[j]);
    }
  }

  /** On success the list written is the de-duplicated lines of the table. */
  lemma GenerateLines(resultCsv: string, csv: CsvReader, d: Dir)
    requires GenerateSpec(resultCsv, csv, d).ok
    ensures var g := GenerateSpec(resultCsv, csv, d);
      var rows := csv(resultCsv).value;
      && NoDup(g.lines)
      && (forall k :: 0 <= k < |g.lines| ==> exists i :: 0 <= i < |rows| && ProxyEntry(rows[i]) == Some(g.lines[k]))
      && (forall i :: 0 <= i < |rows| && ProxyEntry(rows[i]).Some? ==> ProxyEntry(rows[i]).value in g.lines)
  {
    var rows := csv(resultCsv).value;
    assert GenerateSpec(resultCsv, csv, d).lines == Dedup(ProxyLines(rows));
    DistinctLines(rows);
  }
}
