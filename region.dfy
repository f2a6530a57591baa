/** The region filter of the two-phase run: the wanted location codes parsed
    from `cfcolo`, and the scan rows reduced to the bare addresses of the
    rows in those locations. */
module Region {
  import opened Text
  import opened Seqs
  import opened Files

  /** `cfcolo.translate(str.maketrans("，", ","))`: full-width commas become
      ASCII commas. */
  function Translate(s: string): (r: string)
    ensures |r| == |s| && '，' !in r
    ensures forall i :: 0 <= i < |s| ==> r[i] == (if s[i] == '，' then ',' else s[i])
  {
    seq(|s|, i requires 0 <= i < |s| => if s[i] == '，' then ',' else s[i])
  }

  /** The comma-separated pieces of `cfcolo`. */
  function Pieces(cfcolo: string): (r: seq<string>)
    ensures forall i :: 0 <= i < |r| ==> ',' !in r[i] && '，' !in r[i]
  {
    var t := Translate(cfcolo);
    SplitKeepsOut(t, ',', '，');
    Split(t, ',')
  }

  /** `wanted_colos`: each non-blank piece, stripped and upper-cased. */
  function WantedColos(cfcolo: string): set<string> {
    var parts := Pieces(cfcolo);
    set i | 0 <= i < |parts| && Strip(parts[i]) != "" :: Upper(Strip(parts[i]))
  }

  /** `region_{cfcolo.lower()}.txt`. */
  function RegionFile(cfcolo: string): string {
    "region_" + Lower(cfcolo) + ".txt"
  }

  /** Whether a scan row is in one of the wanted locations. */
  predicate InRegion(row: Row, wanted: set<string>) {
    Upper(Strip(Field(row, "地区码", ""))) in wanted
  }

  /** The row's address, stripped. */
  function RowAddress(row: Row): string {
    Strip(Field(row, "IP 地址", ""))
  }

  /** A row in a wanted location with a non-blank address. */
  predicate Qualifies(row: Row, wanted: set<string>) {
    InRegion(row, wanted) && RowAddress(row) != ""
  }

  /** `ip.split(":")[0]`: the address up to its first `:`. */
  function Host(row: Row): string {
    Before(RowAddress(row), ':')
  }

  /** What a row contributes: its host, if it qualifies. */
  function Contribution(row: Row, wanted: set<string>): seq<string> {
    if Qualifies(row, wanted) then [Host(row)] else []
  }

  /** The extracted addresses, in row order, duplicates kept. */
  function RegionIpsSpec(rows: seq<Row>, wanted: set<string>): seq<string> {
    Gather(rows, (row: Row) => Contribution(row, wanted))
  }

  /** The loop appending to `ips`. */
  method RegionIps(rows: seq<Row>, wanted: set<string>) returns (ips: seq<string>)
    ensures ips == RegionIpsSpec(rows, wanted)
  {
    ips := [];
    for i := 0 to |rows|
      invariant ips == RegionIpsSpec(rows[..i], wanted)
    {
      assert rows[..i + 1][..i] == rows[..i];
      var row := rows[i];
      if InRegion(row, wanted) {
        var ip := RowAddress(row);
        if ip != "" {
          ips := ips + [Before(ip, ':')];
        }
      }
    }
    assert rows[..|rows|] == rows;
  }

  // ----- properties -----

  lemma UpperIdempotent(s: string)
    ensures Upper(Upper(s)) == Upper(s)
  {
  }

  /** Stripped characters come from the input. */
  lemma StripFrom(s: string)
    ensures forall k :: 0 <= k < |Strip(s)| ==> Strip(s)[k] in s
  {
    var l := TrimLeft(s);
    var r := TrimRight(l);
    assert Strip(s) == r;
    forall k | 0 <= k < |r| ensures r[k] in s {
      assert r[k] == l[..|r|][k] == l[k];
      assert l[k] == s[|s| - |l|..][k] == s[|s| - |l| + k];
    }
  }

  /** The code a piece gives: non-blank, trimmed, upper-case and free of
      commas of either width. */
  lemma PieceCode(piece: string)
    requires ',' !in piece && '，' !in piece && Strip(piece) != ""
    ensures var w := Upper(Strip(piece));
      w != "" && Strip(w) == w && Upper(w) == w && ',' !in w && '，' !in w
  {
    var s := Strip(piece);
    StripIdempotent(piece);
    UpperStripped(s);
    UpperIdempotent(s);
    StripFrom(piece);
    var w := Upper(s);
    forall k | 0 <= k < |w| ensures w[k] != ',' && w[k] != '，' {
      assert s[k] in piece;
      UpperCharAvoids(s[k], ',');
      UpperCharAvoids(s[k], '，');
    }
  }

  /** Upper-casing never produces a character that is not an upper-case letter. */
  lemma UpperCharAvoids(c: char, x: char)
    requires c != x && !('A' <= x <= 'Z')
    ensures UpperChar(c) != x
  {
  }

  /** Every wanted code is non-blank, trimmed, upper-case and free of commas
      of either width. */
  lemma WantedShape(cfcolo: string, w: string)
    requires w in WantedColos(cfcolo)
    ensures w != "" && Strip(w) == w && Upper(w) == w && ',' !in w && '，' !in w
  {
    var parts := Pieces(cfcolo);
    var i :| 0 <= i < |parts| && Strip(parts[i]) != "" && w == Upper(Strip(parts[i]));
    PieceCode(parts[i]);
  }

  /** Each row is handled by itself: the result for two batches of rows is
      the two results in order, so row order is kept and duplicates stay. */
  lemma RegionIpsAppend(a: seq<Row>, b: seq<Row>, wanted: set<string>)
    ensures RegionIpsSpec(a + b, wanted) == RegionIpsSpec(a, wanted) + RegionIpsSpec(b, wanted)
  {
    GatherAppend(a, b, (row: Row) => Contribution(row, wanted));
  }

  /** What a single row contributes. */
  lemma ContributionShape(row: Row, wanted: set<string>)
    ensures Contribution(row, wanted) == [] <==> !Qualifies(row, wanted)
    ensures forall x :: x in Contribution(row, wanted) ==>
      ':' !in x && Qualifies(row, wanted) && x == Before(RowAddress(row), ':')
  {
  }

  /** The extracted addresses are exactly the hosts of the qualifying rows,
      in row order: `idx` lists the qualifying rows, strictly increasing,
      and holds every one of them. */
  lemma RegionIpsOrder(rows: seq<Row>, wanted: set<string>) returns (idx: seq<nat>)
    ensures var r := RegionIpsSpec(rows, wanted);
      && |idx| == |r|
      && (forall k :: 0 <= k < |idx| ==> idx[k] < |rows| && Qualifies(rows[idx[k]], wanted) && r[k] == Host(rows[idx[k]]))
      && (forall k, l :: 0 <= k < l < |idx| ==> idx[k] < idx[l])
      && (forall i :: 0 <= i < |rows| && Qualifies(rows[i], wanted) ==> i in idx)
  {
    idx := GatherOrder(rows, (row: Row) => Qualifies(row, wanted), Host, (row: Row) => Contribution(row, wanted));
  }

  /** Every extracted address is the part before the port of a qualifying
      row's address, and every qualifying row's host is extracted. */
  lemma RegionIpsContents(rows: seq<Row>, wanted: set<string>)
    ensures var r := RegionIpsSpec(rows, wanted);
      forall k :: 0 <= k < |r| ==>
        (':' !in r[k]
         && exists i :: 0 <= i < |rows| && InRegion(rows[i], wanted) && RowAddress(rows[i]) != ""
              && r[k] == Before(RowAddress(rows[i]), ':'))
    ensures var r := RegionIpsSpec(rows, wanted);
      forall i :: 0 <= i < |rows| && InRegion(rows[i], wanted) && RowAddress(rows[i]) != "" ==>
        Before(RowAddress(rows[i]), ':') in r
  {
    var r := RegionIpsSpec(rows, wanted);
    var idx := RegionIpsOrder(rows, wanted);
    forall k | 0 <= k < |r|
      ensures ':' !in r[k]
      ensures exists i :: (0 <= i < |rows| && InRegion(rows[i], wanted) && RowAddress(rows[i]) != ""
                           && r[k] == Before(RowAddress(rows[i]), ':'))
    {
      var i := idx[k];
      assert Qualifies(rows[i], wanted) && r[k] == Host(rows[i]);
    }
    forall i | 0 <= i < |rows| && InRegion(rows[i], wanted) && RowAddress(rows[i]) != ""
      ensures Before(RowAddress(rows[i]), ':') in r
    {
      assert Qualifies(rows[i], wanted);
      var k :| 0 <= k < |idx| && idx[k] == i;
    }
  }

  /** No address is extracted exactly when no row with a non-blank address
      is in a wanted location. */
  lemma RegionIpsEmpty(rows: seq<Row>, wanted: set<string>)
    ensures RegionIpsSpec(rows, wanted) == [] <==>
      forall i :: 0 <= i < |rows| ==> !InRegion(rows[i], wanted) || RowAddress(rows[i]) == ""
  {
    var f := (row: Row) => Contribution(row, wanted);
    GatherEmpty(rows, f);
    forall i | 0 <= i < |rows|
      ensures f(rows[i]) == [] <==> !Qualifies(rows[i], wanted)
    {
      ContributionShape(rows[i], wanted);
    }
  }

  /** `hkg` asks for Hong Kong only. */
  lemma WantedHongKong()
    ensures WantedColos("hkg") == {"HKG"}
  {
    var hkg := "hkg";
    assert Translate(hkg) == hkg;
    SplitNoSep(hkg, ',');
    var parts := Pieces(hkg);
    assert parts == [hkg];
    StripUnchanged(hkg);
    assert Upper(hkg) == "HKG";
    assert "HKG" in WantedColos(hkg) by {
      assert Strip(parts[0]) != "" && Upper(Strip(parts[0])) == "HKG";
    }
    forall x | x in WantedColos(hkg) ensures x == "HKG" {
      var i :| 0 <= i < |parts| && Strip(parts[i]) != "" && x == Upper(Strip(parts[i]));
      assert i == 0;
    }
  }

  /** A Hong Kong row with address `1.1.1.1:443` is in the region. */
  lemma HongKongMatch(row: Row)
    requires Field(row, "地区码", "") == "HKG" && Field(row, "IP 地址", "") == "1.1.1.1:443"
    ensures InRegion(row, {"HKG"}) && RowAddress(row) == "1.1.1.1" + [':'] + "443"
  {
    StripUnchanged("HKG");
    assert Upper("HKG") == "HKG";
    StripUnchanged("1.1.1.1:443");
    assert "1.1.1.1:443" == "1.1.1.1" + [':'] + "443";
  }

  /** A row in a wanted location with address `host:port` yields `host`. */
  lemma HostOfRow(row: Row, wanted: set<string>, host: string, port: string)
    requires InRegion(row, wanted) && RowAddress(row) == host + [':'] + port && ':' !in host
    ensures Contribution(row, wanted) == [host]
  {
    BeforeJoined(host, ':', port);
  }

  /** The Hong Kong example's host holds no `:`. */
  lemma HongKongHost()
    ensures ':' !in "1.1.1.1"
  {
    var host := "1.1.1.1";
    forall k | 0 <= k < |host| ensures host[k] != ':' {
      assert host[k] == '1' || host[k] == '.';
    }
  }

  /** A Los Angeles row yields nothing. */
  lemma LosAngelesRow(row: Row)
    requires Field(row, "地区码", "") == "LAX"
    ensures Contribution(row, {"HKG"}) == []
  {
    StripUnchanged("LAX");
    assert Upper("LAX") == "LAX";
  }

  /** The filter `hkg` applied to a Hong Kong row and a Los Angeles row
      keeps only the Hong Kong address, without its port. */
  lemma HongKongExample(row1: Row, row2: Row)
    requires Field(row1, "IP 地址", "") == "1.1.1.1:443" && Field(row1, "地区码", "") == "HKG"
    requires Field(row2, "IP 地址", "") == "2.2.2.2:443" && Field(row2, "地区码", "") == "LAX"
    ensures RegionIpsSpec([row1, row2], WantedColos("hkg")) == ["1.1.1.1"]
  {
    WantedHongKong();
    HongKongMatch(row1);
    HongKongHost();
    HostOfRow(row1, {"HKG"}, "1.1.1.1", "443");
    LosAngelesRow(row2);
    GatherTwo(row1, row2, (row: Row) => Contribution(row, {"HKG"}));
  }
}
