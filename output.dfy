/** Report shaping: the format dispatch, the table's four sections, the CSV
    records and the JSON plugin list. What is modelled is the content handed
    to the writers (lines, cells, records, values), not the bytes they
    produce. */
module Output {
  import opened Wrappers
  import opened Text
  import opened Audit

  // ---------------------------------------------------------------------------
  // Format dispatch

  datatype FormatKind = Table | Csv | Json

  /** The format a user-supplied name selects, ignoring letter case. */
  function FormatKindOf(format: string): (k: Option<FormatKind>)
    ensures k == Some(Table) <==> ToLower(format) == "table"
    ensures k == Some(Csv) <==> ToLower(format) == "csv"
    ensures k == Some(Json) <==> ToLower(format) == "json"
    ensures k == None <==> ToLower(format) !in {"table", "csv", "json"}
  {
    var f := ToLower(format);
    if f == "table" then Some(Table)
    else if f == "csv" then Some(Csv)
    else if f == "json" then Some(Json)
    else None
  }

  /** The choice depends only on the lower-cased name. */
  lemma FormatKindIgnoresCase(format: string)
    ensures FormatKindOf(format) == FormatKindOf(ToLower(format))
  {
    ToLowerIdempotent(format);
  }

  // ---------------------------------------------------------------------------
  // Cell helpers

  const UpdateYes: string := "YES \U{26A0}"
  const UpdateNo: string := "No"

  /** The UPDATE? cell: a warning exactly when an update is available. */
  function UpdateIndicator(p: PluginReport): (s: string)
    ensures s == UpdateYes <==> p.updateAvailable == "true"
    ensures s == UpdateNo <==> p.updateAvailable != "true"
  {
    if p.updateAvailable == "true" then UpdateYes else UpdateNo
  }

  /** For a marketplace plugin the warning shows exactly when the installed
      version is older than the catalogue's; an installed version newer than
      the catalogue's shows "No". */
  lemma IndicatorMatchesComparison(p: InstalledPlugin, catalogue: map<string, MarketplacePlugin>)
    requires ReportFor(p, catalogue).source == SourceMarketplace
    ensures UpdateIndicator(ReportFor(p, catalogue)) == UpdateYes <==>
      CompareVersions(p.version, catalogue[p.id].version) < 0
    ensures CompareVersions(p.version, catalogue[p.id].version) > 0 ==>
      UpdateIndicator(ReportFor(p, catalogue)) == UpdateNo
  {
  }

  /** The STATUS cell: the two known statuses capitalised, anything else as is. */
  function CapitalizeStatus(s: string): (r: string)
    ensures s == "enabled" ==> r == "Enabled"
    ensures s == "disabled" ==> r == "Disabled"
    ensures s != "enabled" && s != "disabled" ==> r == s
  {
    if s == "enabled" then "Enabled"
    else if s == "disabled" then "Disabled"
    else s
  }

  /** Capitalising changes letter case only, and a second time does nothing. */
  lemma CapitalizeOnlyChangesCase(s: string)
    ensures ToLower(CapitalizeStatus(s)) == ToLower(s)
    ensures CapitalizeStatus(CapitalizeStatus(s)) == CapitalizeStatus(s)
  {
    if s == "enabled" {
      assert ToLower("Enabled") == "enabled";
    } else if s == "disabled" {
      assert ToLower("Disabled") == "disabled";
    }
  }

  // ---------------------------------------------------------------------------
  // The table's partition

  datatype Section = MarketplaceSection | MattermostSection | BundledSection | ThirdPartySection

  /** The section a report is listed under; an unrecognised source lands in
      the third-party section. */
  function SectionOf(r: PluginReport): (s: Section)
    ensures s == MarketplaceSection <==> r.source == SourceMarketplace
    ensures s == MattermostSection <==> r.source == SourceMattermost
    ensures s == BundledSection <==> r.source == SourceBundled
    ensures s == ThirdPartySection <==>
      r.source != SourceMarketplace && r.source != SourceMattermost && r.source != SourceBundled
  {
    if r.source == SourceMarketplace then MarketplaceSection
    else if r.source == SourceMattermost then MattermostSection
    else if r.source == SourceBundled then BundledSection
    else ThirdPartySection
  }

  /** The reports of one section, in list order. */
  function Bucket(rs: seq<PluginReport>, s: Section): seq<PluginReport>
    decreases |rs|
  {
    if rs == [] then []
    else (if SectionOf(rs[0]) == s then [rs[0]] else []) + Bucket(rs[1..], s)
  }

  /** The partition loop. */
  method Partition(plugins: seq<PluginReport>)
    returns (marketplace: seq<PluginReport>, mattermost: seq<PluginReport>,
             bundled: seq<PluginReport>, thirdParty: seq<PluginReport>)
    ensures marketplace == Bucket(plugins, MarketplaceSection)
    ensures mattermost == Bucket(plugins, MattermostSection)
    ensures bundled == Bucket(plugins, BundledSection)
    ensures thirdParty == Bucket(plugins, ThirdPartySection)
  {
    marketplace, mattermost, bundled, thirdParty := [], [], [], [];
    var i := 0;
    while i < |plugins|
      invariant 0 <= i <= |plugins|
      invariant marketplace == Bucket(plugins[..i], MarketplaceSection)
      invariant mattermost == Bucket(plugins[..i], MattermostSection)
      invariant bundled == Bucket(plugins[..i], BundledSection)
      invariant thirdParty == Bucket(plugins[..i], ThirdPartySection)
    {
      var p := plugins[i];
      assert plugins[..i + 1] == plugins[..i] + [p];
      BucketAppend(plugins[..i], [p], MarketplaceSection);
      BucketAppend(plugins[..i], [p], MattermostSection);
      BucketAppend(plugins[..i], [p], BundledSection);
      BucketAppend(plugins[..i], [p], ThirdPartySection);
      if p.source == SourceMarketplace {
        marketplace := marketplace + [p];
      } else if p.source == SourceMattermost {
        mattermost := mattermost + [p];
      } else if p.source == SourceBundled {
        bundled := bundled + [p];
      } else {
        thirdParty := thirdParty + [p];
      }
      i := i + 1;
    }
    assert plugins[..i] == plugins;
  }

  /** Bucketing keeps the input order: the bucket of a concatenation is the
      concatenation of the buckets. */
  lemma {:induction false} BucketAppend(a: seq<PluginReport>, b: seq<PluginReport>, s: Section)
    ensures Bucket(a + b, s) == Bucket(a, s) + Bucket(b, s)
    decreases |a|
  {
    if a == [] {
      assert a + b == b;
    } else {
      var head := if SectionOf(a[0]) == s then [a[0]] else [];
      assert (a + b)[0] == a[0] && (a + b)[1..] == a[1..] + b;
      assert Bucket(a + b, s) == head + Bucket(a[1..] + b, s);
      BucketAppend(a[1..], b, s);
      assert head + (Bucket(a[1..], s) + Bucket(b, s)) == (head + Bucket(a[1..], s)) + Bucket(b, s);
    }
  }

  /** A report is in a bucket exactly when it is in the list and belongs to
      that section; so every report is in exactly one bucket. */
  lemma {:induction false} BucketMembers(rs: seq<PluginReport>, s: Section, x: PluginReport)
    ensures x in Bucket(rs, s) <==> x in rs && SectionOf(x) == s
    decreases |rs|
  {
    if rs != [] {
      BucketMembers(rs[1..], s, x);
      assert rs == [rs[0]] + rs[1..];
    }
  }

  /** The four bucket sizes add up to the number of reports. */
  lemma {:induction false} BucketSizes(rs: seq<PluginReport>)
    ensures |Bucket(rs, MarketplaceSection)| + |Bucket(rs, MattermostSection)|
          + |Bucket(rs, BundledSection)| + |Bucket(rs, ThirdPartySection)| == |rs|
    decreases |rs|
  {
    if rs != [] {
      BucketSizes(rs[1..]);
    }
  }

  // ---------------------------------------------------------------------------
  // The table

  /** One line handed to the table writer. `Columns` is a tab-separated row
      whose alignment the writer does; the summary line carries the counters
      it prints. */
  datatype TableLine =
    | Heading(title: string, count: nat)
    | Columns(cells: seq<string>)
    | NoneLine
    | BlankLine
    | SummaryLine(summary: AuditSummary)

  const MarketplaceTitle: string := "Marketplace Plugins"
  const MattermostTitle: string := "Mattermost Plugins"
  const BundledTitle: string := "Bundled Mattermost Plugins"
  const ThirdPartyTitle: string := "Third-Party / Custom Plugins"

  const MarketplaceColumns: seq<string> := ["NAME", "INSTALLED", "LATEST", "UPDATE?", "STATUS"]
  const BasicColumns: seq<string> := ["NAME", "INSTALLED", "STATUS"]

  /** A marketplace row: one cell under each of the five headers. */
  function MarketplaceRow(p: PluginReport): (row: seq<string>)
    ensures |row| == |MarketplaceColumns|
    ensures row[0] == p.name && row[1] == p.installedVersion && row[2] == p.latestVersion
    ensures row[3] == UpdateYes <==> p.updateAvailable == "true"
    ensures row[4] == CapitalizeStatus(p.status)
  {
    [p.name, p.installedVersion, p.latestVersion, UpdateIndicator(p), CapitalizeStatus(p.status)]
  }

  /** A row of the other sections: the marketplace row without its LATEST
      and UPDATE? cells. */
  function BasicRow(p: PluginReport): (row: seq<string>)
    ensures |row| == |BasicColumns|
    ensures var wide := MarketplaceRow(p); row == [wide[0], wide[1], wide[4]]
  {
    [p.name, p.installedVersion, CapitalizeStatus(p.status)]
  }

  /** The rows of one section: the marketplace section has the wider layout. */
  function Rows(ps: seq<PluginReport>, wide: bool): (rows: seq<TableLine>)
    ensures |rows| == |ps|
    ensures forall i :: 0 <= i < |ps| ==> rows[i] == Columns(if wide then MarketplaceRow(ps[i]) else BasicRow(ps[i]))
  {
    seq(|ps|, i requires 0 <= i < |ps| => Columns(if wide then MarketplaceRow(ps[i]) else BasicRow(ps[i])))
  }

  /** A section: its heading with the bucket size, then either "(none)" or
      the column header and one row per report, then a blank line. */
  function SectionLines(title: string, ps: seq<PluginReport>, wide: bool): (lines: seq<TableLine>)
    ensures |lines| == (if ps == [] then 3 else |ps| + 3)
    ensures lines[0] == Heading(title, |ps|) && lines[|lines| - 1] == BlankLine
    ensures ps == [] ==> lines[1] == NoneLine
    ensures ps != [] ==> lines[1] == Columns(if wide then MarketplaceColumns else BasicColumns)
    ensures forall i :: 0 <= i < |ps| ==> lines[i + 2] == Columns(if wide then MarketplaceRow(ps[i]) else BasicRow(ps[i]))
  {
    [Heading(title, |ps|)]
    + (if ps == [] then [NoneLine] else [Columns(if wide then MarketplaceColumns else BasicColumns)] + Rows(ps, wide))
    + [BlankLine]
  }

  /** The whole table: four sections in fixed order, then the summary line. */
  function TableLines(result: AuditResult): (lines: seq<TableLine>)
    ensures |lines| >= 13
    ensures lines[0] == Heading(MarketplaceTitle, |Bucket(result.plugins, MarketplaceSection)|)
    ensures lines[|lines| - 1] == SummaryLine(result.summary)
  {
    var rs := result.plugins;
    SectionLines(MarketplaceTitle, Bucket(rs, MarketplaceSection), true)
    + SectionLines(MattermostTitle, Bucket(rs, MattermostSection), false)
    + SectionLines(BundledTitle, Bucket(rs, BundledSection), false)
    + SectionLines(ThirdPartyTitle, Bucket(rs, ThirdPartySection), false)
    + [SummaryLine(result.summary)]
  }

  /** Partitions, then writes the sections and the summary. */
  method FormatTable(result: AuditResult) returns (lines: seq<TableLine>)
    ensures lines == TableLines(result)
  {
    var marketplace, mattermost, bundled, thirdParty := Partition(result.plugins);
    lines := SectionLines(MarketplaceTitle, marketplace, true);
    lines := lines + SectionLines(MattermostTitle, mattermost, false);
    lines := lines + SectionLines(BundledTitle, bundled, false);
    lines := lines + SectionLines(ThirdPartyTitle, thirdParty, false);
    lines := lines + [SummaryLine(result.summary)];
  }

  /** The heading lines, in order. */
  function Headings(lines: seq<TableLine>): seq<TableLine>
    decreases |lines|
  {
    if lines == [] then []
    else (if lines[0].Heading? then [lines[0]] else []) + Headings(lines[1..])
  }

  /** How many "(none)" lines there are. */
  function NoneCount(lines: seq<TableLine>): nat
    decreases |lines|
  {
    if lines == [] then 0
    else (if lines[0].NoneLine? then 1 else 0) + NoneCount(lines[1..])
  }

  lemma {:induction false} LineCountsAppend(a: seq<TableLine>, b: seq<TableLine>)
    ensures Headings(a + b) == Headings(a) + Headings(b)
    ensures NoneCount(a + b) == NoneCount(a) + NoneCount(b)
    decreases |a|
  {
    if a == [] {
      assert a + b == b;
    } else {
      var head := if a[0].Heading? then [a[0]] else [];
      assert (a + b)[0] == a[0] && (a + b)[1..] == a[1..] + b;
      assert Headings(a + b) == head + Headings(a[1..] + b);
      assert NoneCount(a + b) == (if a[0].NoneLine? then 1 else 0) + NoneCount(a[1..] + b);
      LineCountsAppend(a[1..], b);
      assert head + (Headings(a[1..]) + Headings(b)) == (head + Headings(a[1..])) + Headings(b);
    }
  }

  lemma {:induction false} RowsAreColumns(rows: seq<TableLine>)
    requires forall i :: 0 <= i < |rows| ==> rows[i].Columns?
    ensures Headings(rows) == [] && NoneCount(rows) == 0
    decreases |rows|
  {
    if rows != [] {
      RowsAreColumns(rows[1..]);
    }
  }

  /** A section has exactly one heading, and one "(none)" line exactly when
      it is empty. */
  lemma SectionCounts(title: string, ps: seq<PluginReport>, wide: bool)
    ensures Headings(SectionLines(title, ps, wide)) == [Heading(title, |ps|)]
    ensures NoneCount(SectionLines(title, ps, wide)) == if ps == [] then 1 else 0
  {
    var middle := if ps == [] then [NoneLine] else [Columns(if wide then MarketplaceColumns else BasicColumns)] + Rows(ps, wide);
    if ps != [] {
      var rows := Rows(ps, wide);
      RowsAreColumns(rows);
      LineCountsAppend([Columns(if wide then MarketplaceColumns else BasicColumns)], rows);
    }
    LineCountsAppend([Heading(title, |ps|)], middle);
    LineCountsAppend([Heading(title, |ps|)] + middle, [BlankLine]);
  }

  /** The sections appear in the fixed order, each heading showing the size
      of its bucket. */
  lemma TableHeadings(result: AuditResult)
    ensures var rs := result.plugins;
      Headings(TableLines(result)) == [
        Heading(MarketplaceTitle, |Bucket(rs, MarketplaceSection)|),
        Heading(MattermostTitle, |Bucket(rs, MattermostSection)|),
        Heading(BundledTitle, |Bucket(rs, BundledSection)|),
        Heading(ThirdPartyTitle, |Bucket(rs, ThirdPartySection)|)]
    ensures NoneCount(TableLines(result)) ==
      (if Bucket(result.plugins, MarketplaceSection) == [] then 1 else 0)
      + (if Bucket(result.plugins, MattermostSection) == [] then 1 else 0)
      + (if Bucket(result.plugins, BundledSection) == [] then 1 else 0)
      + (if Bucket(result.plugins, ThirdPartySection) == [] then 1 else 0)
  {
    var rs := result.plugins;
    var s1 := SectionLines(MarketplaceTitle, Bucket(rs, MarketplaceSection), true);
    var s2 := SectionLines(MattermostTitle, Bucket(rs, MattermostSection), false);
    var s3 := SectionLines(BundledTitle, Bucket(rs, BundledSection), false);
    var s4 := SectionLines(ThirdPartyTitle, Bucket(rs, ThirdPartySection), false);
    SectionCounts(MarketplaceTitle, Bucket(rs, MarketplaceSection), true);
    SectionCounts(MattermostTitle, Bucket(rs, MattermostSection), false);
    SectionCounts(BundledTitle, Bucket(rs, BundledSection), false);
    SectionCounts(ThirdPartyTitle, Bucket(rs, ThirdPartySection), false);
    LineCountsAppend(s1, s2);
    LineCountsAppend(s1 + s2, s3);
    LineCountsAppend(s1 + s2 + s3, s4);
    LineCountsAppend(s1 + s2 + s3 + s4, [SummaryLine(result.summary)]);
  }

  /** With no plugins, every section reads "(none)": four times in all. */
  lemma EmptyTableShowsNoneFourTimes(summary: AuditSummary)
    ensures NoneCount(TableLines(AuditResult([], summary))) == 4
  {
    TableHeadings(AuditResult([], summary));
  }

  /** The summary line prints the stored counters, not a recount: it is the
      last line, it is the same whatever the plugin list holds. */
  lemma TableSummaryIsStored(plugins: seq<PluginReport>, plugins': seq<PluginReport>, summary: AuditSummary)
    ensures var lines := TableLines(AuditResult(plugins, summary));
      |lines| > 0 && lines[|lines| - 1] == SummaryLine(summary)
    ensures var lines := TableLines(AuditResult(plugins, summary));
      var lines' := TableLines(AuditResult(plugins', summary));
      lines[|lines| - 1] == lines'[|lines'| - 1]
  {
  }

  // ---------------------------------------------------------------------------
  // Rendering of the fixed lines

  /** The text of the summary line. */
  function SummaryText(s: AuditSummary): (t: string)
    ensures |t| > |SummaryLabel| && t[..|SummaryLabel|] == SummaryLabel
    ensures s.total < 0 ==> t[|SummaryLabel|] == '-'
  {
    var number := IntToDecimal(s.total);
    var rest := number + TotalSuffix + SummaryTail(s);
    assert SummaryHead(s) + SummaryTail(s) == SummaryLabel + rest;
    assert rest[0] == number[0];
    SummaryHead(s) + SummaryTail(s)
  }

  const SummaryLabel := "Summary: "
  const TotalSuffix := " plugin(s) total"

  function SummaryHead(s: AuditSummary): string {
    SummaryLabel + IntToDecimal(s.total) + TotalSuffix
  }

  function SummaryTail(s: AuditSummary): string {
    " \U{2014} "
    + IntToDecimal(s.marketplace) + " marketplace ("
    + IntToDecimal(s.outdated) + " outdated, "
    + IntToDecimal(s.upToDate) + " up to date), "
    + IntToDecimal(s.mattermostPlugin) + " mattermost, "
    + IntToDecimal(s.bundled) + " bundled, "
    + IntToDecimal(s.thirdParty) + " third-party/custom \U{2014} "
    + IntToDecimal(s.enabled) + " enabled, "
    + IntToDecimal(s.disabled) + " disabled"
  }

  /** Joins cells with a separator. */
  function Join(cells: seq<string>, sep: string): string
    decreases |cells|
  {
    if cells == [] then ""
    else if |cells| == 1 then cells[0]
    else cells[0] + sep + Join(cells[1..], sep)
  }

  /** The text handed to the writer for one line (before column alignment). */
  function RenderLine(l: TableLine): (t: string)
    ensures l.BlankLine? ==> t == ""
    ensures l.Heading? || l.NoneLine? || l.SummaryLine? ==> t != ""
  {
    match l
    case Heading(title, count) => "=== " + title + " (" + NatToDecimal(count) + ") ==="
    case Columns(cells) => Join(cells, "\t")
    case NoneLine => "(none)"
    case BlankLine => ""
    case SummaryLine(s) => SummaryText(s)
  }

  /** Cutting a number's digits out of the text around them. */
  lemma DigitsBetween(pre: string, n: nat, post: string)
    ensures var t := pre + NatToDecimal(n) + post;
      var d := |NatToDecimal(n)|;
      t[..|pre|] == pre && AllDigits(t[|pre|..|pre| + d]) && t[|pre| + d..] == post
      && DecimalValue(t[|pre|..|pre| + d]) == n
  {
    var digits := NatToDecimal(n);
    var t := pre + digits + post;
    assert t[|pre|..|pre| + |digits|] == digits;
    assert t[|pre| + |digits|..] == post;
    DecimalRoundTrip(n);
  }

  /** The summary opens with its label and the total's digits, which read
      back to the total, followed by a space. */
  lemma SummaryTextReadsBack(s: AuditSummary)
    requires s.total >= 0
    ensures var t := SummaryText(s);
      var k := |SummaryLabel|;
      var d := |NatToDecimal(s.total)|;
      |t| > k + d && t[..k] == SummaryLabel && AllDigits(t[k..k + d]) && t[k + d] == ' '
      && DecimalValue(t[k..k + d]) == s.total
  {
    var digits := NatToDecimal(s.total);
    var post := TotalSuffix + SummaryTail(s);
    assert SummaryText(s) == SummaryLabel + digits + post;
    DigitsBetween(SummaryLabel, s.total, post);
    assert post[0] == TotalSuffix[0];
  }

  /** The table's last line, once rendered, is that summary text (the
      Go code's tests look for "5 plugin(s) total"). */
  lemma SummaryLineReadsBack(result: AuditResult)
    requires result.summary.total >= 0
    ensures var lines := TableLines(result);
      var t := RenderLine(lines[|lines| - 1]);
      var k := |SummaryLabel|;
      var d := |NatToDecimal(result.summary.total)|;
      |t| > k + d && t[..k] == SummaryLabel && AllDigits(t[k..k + d]) && t[k + d] == ' '
      && DecimalValue(t[k..k + d]) == result.summary.total
  {
    var lines := TableLines(result);
    assert RenderLine(lines[|lines| - 1]) == SummaryText(result.summary);
    SummaryTextReadsBack(result.summary);
  }

  /** A rendered heading carries its title and a count that reads back:
      "=== " + title + " (" + digits + ") ===". */
  lemma HeadingReadsBack(title: string, n: nat)
    ensures var t := RenderLine(Heading(title, n));
      var k := |title| + 6;
      var d := |NatToDecimal(n)|;
      |t| == k + d + 5 && t[..k] == "=== " + title + " (" && AllDigits(t[k..k + d]) && t[k + d..] == ") ==="
      && DecimalValue(t[k..k + d]) == n
  {
    DigitsBetween("=== " + title + " (", n, ") ===");
  }

  /** The number of occurrences of a character. */
  function CountChar(s: string, c: char): (n: nat)
    ensures n <= |s|
    decreases |s|
  {
    if s == [] then 0 else (if s[0] == c then 1 else 0) + CountChar(s[1..], c)
  }

  lemma {:induction false} CountCharAppend(a: string, b: string, c: char)
    ensures CountChar(a + b, c) == CountChar(a, c) + CountChar(b, c)
    decreases |a|
  {
    if a == [] {
      assert a + b == b;
    } else {
      assert (a + b)[1..] == a[1..] + b;
      CountCharAppend(a[1..], b, c);
    }
  }

  /** A rendered row of tab-free cells has one tab fewer than it has
      cells, so the tab writer sees every column. */
  lemma {:induction false} JoinTabCount(cells: seq<string>)
    requires |cells| > 0
    requires forall i :: 0 <= i < |cells| ==> CountChar(cells[i], '\t') == 0
    ensures CountChar(RenderLine(Columns(cells)), '\t') == |cells| - 1
    decreases |cells|
  {
    if |cells| > 1 {
      var tail := Join(cells[1..], "\t");
      assert Join(cells, "\t") == cells[0] + ("\t" + tail);
      CountCharAppend(cells[0], "\t" + tail, '\t');
      CountCharAppend("\t", tail, '\t');
      assert CountChar("\t", '\t') == 1;
      JoinTabCount(cells[1..]);
    }
  }

  /** A rendered row whose cells hold no tab splits into as many columns
      as its section's header. */
  lemma RowMatchesHeader(p: PluginReport, wide: bool)
    requires var row := if wide then MarketplaceRow(p) else BasicRow(p);
      forall i :: 0 <= i < |row| ==> CountChar(row[i], '\t') == 0
    ensures var header := if wide then MarketplaceColumns else BasicColumns;
      CountChar(RenderLine(Columns(if wide then MarketplaceRow(p) else BasicRow(p))), '\t') == |header| - 1
  {
    JoinTabCount(if wide then MarketplaceRow(p) else BasicRow(p));
  }

  // ---------------------------------------------------------------------------
  // CSV

  const CsvHeader: seq<string> := [
    "plugin_id", "name", "installed_version", "latest_version",
    "update_available", "status", "type", "source", "marketplace_url"]

  /** One CSV record; it carries the tri-state string. */
  function CsvRow(p: PluginReport): (row: seq<string>)
    ensures |row| == |CsvHeader|
  {
    [p.pluginId, p.name, p.installedVersion, p.latestVersion,
     p.updateAvailable, p.status, p.pluginType, p.source, p.marketplaceUrl]
  }

  /** Reads a tri-state string back to the nullable flag. */
  function FlagOf(s: string): (b: Option<bool>)
    ensures s in {"true", "false", "unknown"} ==> UpdateFlag(b) == s
  {
    if s == "true" then Some(true) else if s == "false" then Some(false) else None
  }

  lemma FlagOfUpdateFlag(b: Option<bool>)
    ensures FlagOf(UpdateFlag(b)) == b
  {
  }

  /** Reads a record back to a report: the inverse the CSV rows are checked
      against. */
  function ReportOfCsvRow(row: seq<string>): Option<PluginReport> {
    if |row| != |CsvHeader| || row[4] !in {"true", "false", "unknown"} then None
    else Some(PluginReport(row[0], row[1], row[2], row[3], row[4], FlagOf(row[4]), row[5], row[7], row[8], row[6]))
  }

  /** A record keeps every field of a report whose two flag spellings agree. */
  lemma CsvRowRoundTrip(p: PluginReport)
    requires FlagConsistent(p)
    ensures ReportOfCsvRow(CsvRow(p)) == Some(p)
  {
    FlagOfUpdateFlag(p.updateAvailJson);
  }

  /** The header, then one record per report in list order. */
  predicate CsvContent(plugins: seq<PluginReport>, records: seq<seq<string>>) {
    && |records| == |plugins| + 1
    && records[0] == CsvHeader
    && forall i :: 0 <= i < |plugins| ==> records[i + 1] == CsvRow(plugins[i])
  }

  /** The record-writing loop. */
  method FormatCsv(plugins: seq<PluginReport>) returns (records: seq<seq<string>>)
    ensures CsvContent(plugins, records)
    ensures forall i :: 0 <= i < |records| ==> |records[i]| == |CsvHeader|
  {
    records := [CsvHeader];
    var i := 0;
    while i < |plugins|
      invariant 0 <= i <= |plugins|
      invariant |records| == i + 1 && records[0] == CsvHeader
      invariant forall k :: 0 <= k < |records| ==> |records[k]| == |CsvHeader|
      invariant forall k :: 0 <= k < i ==> records[k + 1] == CsvRow(plugins[k])
    {
      records := records + [CsvRow(plugins[i])];
      i := i + 1;
    }
  }

  /** The records give back the reports they were written from. */
  lemma CsvRecordsRoundTrip(plugins: seq<PluginReport>, records: seq<seq<string>>)
    requires CsvContent(plugins, records)
    requires forall i :: 0 <= i < |plugins| ==> FlagConsistent(plugins[i])
    ensures forall i :: 0 <= i < |plugins| ==> ReportOfCsvRow(records[i + 1]) == Some(plugins[i])
  {
    forall i | 0 <= i < |plugins|
      ensures ReportOfCsvRow(records[i + 1]) == Some(plugins[i])
    {
      CsvRowRoundTrip(plugins[i]);
    }
  }

  // ---------------------------------------------------------------------------
  // JSON

  /** One JSON plugin object; the update flag is the nullable bool. */
  datatype JsonPlugin = JsonPlugin(
    pluginId: string,
    name: string,
    installedVersion: string,
    latestVersion: string,
    updateAvailable: Option<bool>,
    status: string,
    pluginType: string,
    source: string,
    marketplaceUrl: string)

  /** The JSON document: the plugin list (never null) and the summary. */
  datatype JsonOutput = JsonOutput(plugins: seq<JsonPlugin>, summary: AuditSummary)

  function ToJsonPlugin(p: PluginReport): (j: JsonPlugin)
    ensures FlagConsistent(p) ==> ReportOfJson(j) == p
  {
    JsonPlugin(p.pluginId, p.name, p.installedVersion, p.latestVersion, p.updateAvailJson,
               p.status, p.pluginType, p.source, p.marketplaceUrl)
  }

  /** Reads a JSON plugin back to a report, spelling the flag from the bool. */
  function ReportOfJson(j: JsonPlugin): PluginReport {
    PluginReport(j.pluginId, j.name, j.installedVersion, j.latestVersion, UpdateFlag(j.updateAvailable),
                 j.updateAvailable, j.status, j.source, j.marketplaceUrl, j.pluginType)
  }

  /** A JSON plugin keeps every field of a report whose flag spellings agree,
      and its flag is null exactly when the report says "unknown". */
  lemma JsonRoundTrip(p: PluginReport)
    requires FlagConsistent(p)
    ensures ReportOfJson(ToJsonPlugin(p)) == p
    ensures ToJsonPlugin(p).updateAvailable.None? <==> p.updateAvailable == "unknown"
  {
  }

  /** One JSON plugin per report, same order, and the summary verbatim. */
  predicate JsonContent(result: AuditResult, out: JsonOutput) {
    && |out.plugins| == |result.plugins|
    && (forall i :: 0 <= i < |result.plugins| ==> out.plugins[i] == ToJsonPlugin(result.plugins[i]))
    && out.summary == result.summary
  }

  /** The plugin-list building loop. */
  method FormatJson(result: AuditResult) returns (out: JsonOutput)
    ensures JsonContent(result, out)
    ensures result.plugins == [] ==> out.plugins == []
  {
    var plugins: seq<JsonPlugin> := [];
    var i := 0;
    while i < |result.plugins|
      invariant 0 <= i <= |result.plugins|
      invariant |plugins| == i
      invariant forall k :: 0 <= k < i ==> plugins[k] == ToJsonPlugin(result.plugins[k])
    {
      plugins := plugins + [ToJsonPlugin(result.plugins[i])];
      i := i + 1;
    }
    out := JsonOutput(plugins, result.summary);
  }

  // ---------------------------------------------------------------------------
  // FormatOutput

  /** What a writer is handed, by format. */
  datatype Document =
    | TableDocument(lines: seq<TableLine>)
    | CsvDocument(records: seq<seq<string>>)
    | JsonDocument(output: JsonOutput)

  /** Dispatches on the lower-cased format name; an unknown name is an error
      naming the format as given, and nothing is produced. */
  method FormatOutput(result: AuditResult, format: string) returns (res: Result<Document, string>)
    ensures FormatKindOf(format) == None ==> res == Failure("unknown format: " + format)
    ensures FormatKindOf(format) == Some(Table) ==> res == Success(TableDocument(TableLines(result)))
    ensures FormatKindOf(format) == Some(Csv) ==>
      res.Success? && res.value.CsvDocument? && CsvContent(result.plugins, res.value.records)
    ensures FormatKindOf(format) == Some(Json) ==>
      res.Success? && res.value.JsonDocument? && JsonContent(result, res.value.output)
  {
    var kind := FormatKindOf(format);
    match kind {
      case Some(Table) =>
        var lines := FormatTable(result);
        res := Success(TableDocument(lines));
      case Some(Csv) =>
        var records := FormatCsv(result.plugins);
        res := Success(CsvDocument(records));
      case Some(Json) =>
        var out := FormatJson(result);
        res := Success(JsonDocument(out));
      case None =>
        res := Failure("unknown format: " + format);
    }
  }
}
