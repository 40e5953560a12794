/** The classification-and-comparison engine: version comparison, component
    type, provenance classification, and the audit run that turns the
    installed plugins and the marketplace catalogue into a sorted report with
    a summary. */
module Audit {
  import opened Wrappers
  import opened Text
  import Semver
  import opened Errors

  // ---------------------------------------------------------------------------
  // Data model

  // Plugin source categories.
  const SourceMarketplace: string := "marketplace"
  const SourceBundled: string := "bundled"
  const SourceMattermost: string := "mattermost-plugin"
  const SourceThirdParty: string := "third-party"

  /** The exact plugin IDs that ship bundled with the server. */
  const BundledPlugins: set<string> := {
    "mattermost-ai",
    "focalboard",
    "com.mattermost.calls",
    "com.mattermost.plugin-channel-export",
    "github",
    "com.github.manland.mattermost-plugin-gitlab",
    "jira",
    "com.mattermost.mattermost-plugin-metrics",
    "com.mattermost.mscalendar",
    "com.mattermost.msteamsmeetings",
    "playbooks",
    "mattermost-plugin-servicenow",
    "com.mattermost.user-survey",
    "zoom"
  }

  /** The path segment of the vendor's own GitHub organisation. */
  const VendorPath: string := "github.com/mattermost/"
  /** The community organisation's segment, which must not count as the vendor's. */
  const CommunityPath: string := "github.com/mattermost-community/"

  /** One plugin installed on the server. `status` is "enabled" or "disabled". */
  datatype InstalledPlugin = InstalledPlugin(
    id: string,
    name: string,
    version: string,
    homepageUrl: string,
    status: string,
    hasServer: bool,
    hasWebapp: bool)

  /** One catalogue entry; the catalogue is keyed by plugin ID. */
  datatype MarketplacePlugin = MarketplacePlugin(version: string, homepageUrl: string)

  /** The audit data for one plugin. The update flag is kept twice, as in the
      source: `updateAvailable` is "true", "false" or "unknown" (for the table
      and CSV), `updateAvailJson` the nullable bool for JSON. */
  datatype PluginReport = PluginReport(
    pluginId: string,
    name: string,
    installedVersion: string,
    latestVersion: string,
    updateAvailable: string,
    updateAvailJson: Option<bool>,
    status: string,
    source: string,
    marketplaceUrl: string,
    pluginType: string)

  datatype AuditSummary = AuditSummary(
    total: int,
    marketplace: int,
    bundled: int,
    mattermostPlugin: int,
    thirdParty: int,
    outdated: int,
    upToDate: int,
    unknown: int,
    enabled: int,
    disabled: int)

  datatype AuditResult = AuditResult(plugins: seq<PluginReport>, summary: AuditSummary)

  datatype AuditOptions = AuditOptions(outdatedOnly: bool, verbose: bool)

  /** The string spelling of a nullable update flag. */
  function UpdateFlag(b: Option<bool>): (s: string)
    ensures s in {"true", "false", "unknown"}
    ensures s == "true" <==> b == Some(true)
    ensures s == "unknown" <==> b.None?
  {
    match b
    case Some(true) => "true"
    case Some(false) => "false"
    case None => "unknown"
  }

  /** The two spellings of the flag agree with each other. */
  predicate FlagConsistent(r: PluginReport) {
    r.updateAvailable == UpdateFlag(r.updateAvailJson)
  }

  /** The spelling determines the nullable bool, so either one can be rebuilt
      from the other. */
  lemma UpdateFlagInjective(a: Option<bool>, b: Option<bool>)
    requires UpdateFlag(a) == UpdateFlag(b)
    ensures a == b
  {
  }

  predicate KnownSource(s: string) {
    s == SourceMarketplace || s == SourceBundled || s == SourceMattermost || s == SourceThirdParty
  }

  /** What every report the engine builds satisfies: the flag's two spellings
      agree, the source is one of the four, and the flag is "unknown" exactly
      for non-marketplace plugins. */
  predicate WellFormedReport(r: PluginReport) {
    && FlagConsistent(r)
    && KnownSource(r.source)
    && (r.updateAvailJson.None? <==> r.source != SourceMarketplace)
  }

  // ---------------------------------------------------------------------------
  // Version comparison

  /** Prepends "v" to a non-empty version that lacks it. */
  function NormalizeVersion(v: string): (r: string)
    ensures v == [] ==> r == []
    ensures v != [] ==> HasPrefix(r, "v")
    ensures r == v || r == "v" + v
    ensures HasPrefix(v, "v") ==> r == v
  {
    if v == "" then ""
    else if !HasPrefix(v, "v") then "v" + v
    else v
  }

  /** Normalising twice changes nothing more. */
  lemma NormalizeIdempotent(v: string)
    ensures NormalizeVersion(NormalizeVersion(v)) == NormalizeVersion(v)
  {
  }

  /** Both inputs, once normalised, parse as semantic versions. */
  predicate BothValid(installed: string, latest: string) {
    Semver.IsValid(NormalizeVersion(installed)) && Semver.IsValid(NormalizeVersion(latest))
  }

  /** -1 when `installed` is older than `latest`, 0 when equal, 1 when newer.
      When either is not a semantic version the result is 0 for byte-equal
      strings and -1 otherwise, never 1. */
  function CompareVersions(installed: string, latest: string): (c: int)
    ensures c in {-1, 0, 1}
    ensures !BothValid(installed, latest) ==> c != 1 && (c == 0 <==> installed == latest)
    ensures BothValid(installed, latest) ==>
      c == Semver.Compare(Semver.Parse(NormalizeVersion(installed)).value,
                          Semver.Parse(NormalizeVersion(latest)).value)
  {
    var ni := NormalizeVersion(installed);
    var nl := NormalizeVersion(latest);
    if !Semver.IsValid(ni) || !Semver.IsValid(nl) then
      if installed == latest then 0 else -1
    else
      Semver.Compare(Semver.Parse(ni).value, Semver.Parse(nl).value)
  }

  /** Every string equals itself, valid or not. */
  lemma CompareVersionsReflexive(v: string)
    ensures CompareVersions(v, v) == 0
  {
  }

  /** On semantic versions, swapping the arguments negates the result, and
      0 means the versions differ at most in a "v" prefix or build metadata. */
  lemma CompareVersionsAntisymmetric(a: string, b: string)
    requires BothValid(a, b)
    ensures CompareVersions(a, b) == -CompareVersions(b, a)
    ensures CompareVersions(a, b) == 0 <==>
      Semver.Parse(NormalizeVersion(a)) == Semver.Parse(NormalizeVersion(b))
  {
    Semver.CompareAntisymmetric(Semver.Parse(NormalizeVersion(a)).value,
                                Semver.Parse(NormalizeVersion(b)).value);
  }

  /** On semantic versions, "not newer than" is transitive. */
  lemma CompareVersionsTransitive(a: string, b: string, c: string)
    requires BothValid(a, b) && BothValid(b, c)
    requires CompareVersions(a, b) <= 0 && CompareVersions(b, c) <= 0
    ensures CompareVersions(a, c) <= 0
  {
    Semver.CompareTransitive(Semver.Parse(NormalizeVersion(a)).value,
                             Semver.Parse(NormalizeVersion(b)).value,
                             Semver.Parse(NormalizeVersion(c)).value);
  }

  /** The fallback is deliberately not antisymmetric: a malformed version and
      a valid one are each reported as older than the other. */
  lemma FallbackIsAsymmetric()
    ensures CompareVersions("abc", "1.0.0") == -1
    ensures CompareVersions("1.0.0", "abc") == -1
    ensures CompareVersions("abc", "abc") == 0
    ensures CompareVersions("abc", "def") == -1
  {
    assert Semver.ParseNumber("abc") == None;
  }

  /** A version spelled without the prefix is normalised by prepending it. */
  lemma NormalizeAddsPrefix(s: string)
    requires s != [] && s[0] != 'v'
    ensures NormalizeVersion(s) == "v" + s
  {
    assert s[..1] != "v" by {
      assert s[..1][0] == s[0];
    }
  }

  /** Reduces `CompareVersions` to precedence when both strings, once
      normalised, are canonical spellings of versions. */
  lemma CompareSpelledVersions(a: string, b: string, va: Semver.Version, vb: Semver.Version)
    requires Semver.WellFormed(va) && Semver.Format(va) == NormalizeVersion(a)
    requires Semver.WellFormed(vb) && Semver.Format(vb) == NormalizeVersion(b)
    ensures CompareVersions(a, b) == Semver.Compare(va, vb)
  {
    Semver.ParseFormat(va);
    Semver.ParseFormat(vb);
  }

  /** "1.0.0" and "v1.0.0" are the same version. */
  lemma CompareVersionsPrefixExample()
    ensures CompareVersions("1.0.0", "v1.0.0") == 0
  {
    var v := Semver.Version(1, 0, 0, []);
    assert NatToDecimal(0) == "0" && NatToDecimal(1) == "1";
    Semver.FormatRelease(1, 0, 0);
    NormalizeAddsPrefix("1.0.0");
    assert NormalizeVersion("v1.0.0") == "v1.0.0";
    CompareSpelledVersions("1.0.0", "v1.0.0", v, v);
  }

  /** A patch update is detected. */
  lemma CompareVersionsPatchExample()
    ensures CompareVersions("1.0.0", "1.0.1") == -1
  {
    assert NatToDecimal(0) == "0" && NatToDecimal(1) == "1";
    Semver.FormatRelease(1, 0, 0);
    Semver.FormatRelease(1, 0, 1);
    NormalizeAddsPrefix("1.0.0");
    NormalizeAddsPrefix("1.0.1");
    CompareSpelledVersions("1.0.0", "1.0.1", Semver.Version(1, 0, 0, []), Semver.Version(1, 0, 1, []));
  }

  /** A major update is detected, and a newer install compares as 1. */
  lemma CompareVersionsMajorExample()
    ensures CompareVersions("1.0.0", "2.0.0") == -1
    ensures CompareVersions("2.0.0", "1.0.0") == 1
  {
    assert NatToDecimal(0) == "0" && NatToDecimal(1) == "1" && NatToDecimal(2) == "2";
    Semver.FormatRelease(1, 0, 0);
    Semver.FormatRelease(2, 0, 0);
    NormalizeAddsPrefix("1.0.0");
    NormalizeAddsPrefix("2.0.0");
    CompareSpelledVersions("1.0.0", "2.0.0", Semver.Version(1, 0, 0, []), Semver.Version(2, 0, 0, []));
    CompareSpelledVersions("2.0.0", "1.0.0", Semver.Version(2, 0, 0, []), Semver.Version(1, 0, 0, []));
  }

  /** Numeric parts compare as numbers, not as text: 1.9.0 < 1.10.0. */
  lemma CompareVersionsNumericExample()
    ensures CompareVersions("1.9.0", "1.10.0") == -1
    ensures CompareVersions("1.10.0", "1.9.0") == 1
  {
    assert NatToDecimal(0) == "0" && NatToDecimal(1) == "1";
    assert NatToDecimal(9) == "9" && NatToDecimal(10) == "10";
    Semver.FormatRelease(1, 9, 0);
    Semver.FormatRelease(1, 10, 0);
    NormalizeAddsPrefix("1.9.0");
    NormalizeAddsPrefix("1.10.0");
    CompareSpelledVersions("1.9.0", "1.10.0", Semver.Version(1, 9, 0, []), Semver.Version(1, 10, 0, []));
    CompareSpelledVersions("1.10.0", "1.9.0", Semver.Version(1, 10, 0, []), Semver.Version(1, 9, 0, []));
  }

  /** A pre-release is older than its release: 1.0.0-rc1 < 1.0.0. */
  lemma CompareVersionsPrereleaseExample()
    ensures CompareVersions("1.0.0-rc1", "1.0.0") == -1
  {
    assert NatToDecimal(0) == "0" && NatToDecimal(1) == "1";
    var rc := Semver.Version(1, 0, 0, [Semver.Alphanumeric("rc1")]);
    assert !AllDigits("rc1") by { assert !IsDigit("rc1"[0]); }
    assert Semver.FormatIdents([Semver.Alphanumeric("rc1")]) == "rc1";
    assert Semver.Format(rc) == "v1.0.0-rc1";
    Semver.FormatRelease(1, 0, 0);
    NormalizeAddsPrefix("1.0.0");
    NormalizeAddsPrefix("1.0.0-rc1");
    CompareSpelledVersions("1.0.0-rc1", "1.0.0", rc, Semver.Version(1, 0, 0, []));
  }

  // ---------------------------------------------------------------------------
  // Component type

  /** "both", "server", "webapp" or "unknown", by which components exist. */
  function DeterminePluginType(hasServer: bool, hasWebapp: bool): (t: string)
    ensures t in {"both", "server", "webapp", "unknown"}
  {
    if hasServer && hasWebapp then "both"
    else if hasServer then "server"
    else if hasWebapp then "webapp"
    else "unknown"
  }

  /** Reads the component flags back from a type string; the independent
      reading that `DeterminePluginType` is checked against. */
  function ComponentsOf(pluginType: string): (bool, bool) {
    (pluginType == "both" || pluginType == "server", pluginType == "both" || pluginType == "webapp")
  }

  /** The type string records exactly which components exist: the four
      combinations give four different strings. */
  lemma PluginTypeRoundTrip(hasServer: bool, hasWebapp: bool)
    ensures ComponentsOf(DeterminePluginType(hasServer, hasWebapp)) == (hasServer, hasWebapp)
  {
  }

  // ---------------------------------------------------------------------------
  // Source classification

  /** A homepage in the vendor's organisation and not in its community one. */
  predicate VendorHomepage(homepageUrl: string) {
    Contains(homepageUrl, VendorPath) && !Contains(homepageUrl, CommunityPath)
  }

  /** The four-tier priority chain, first match wins: bundled ID, marketplace
      listing, vendor homepage, and otherwise third-party. */
  function ClassifyPluginSource(pluginId: string, inMarketplace: bool, homepageUrl: string): (source: string)
    ensures KnownSource(source)
    ensures source == SourceBundled <==> pluginId in BundledPlugins
    ensures source == SourceMarketplace <==> pluginId !in BundledPlugins && inMarketplace
    ensures source == SourceMattermost <==>
      pluginId !in BundledPlugins && !inMarketplace && VendorHomepage(homepageUrl)
    ensures source == SourceThirdParty <==>
      pluginId !in BundledPlugins && !inMarketplace && !VendorHomepage(homepageUrl)
  {
    if pluginId in BundledPlugins then SourceBundled
    else if inMarketplace then SourceMarketplace
    else if Contains(homepageUrl, VendorPath) && !Contains(homepageUrl, CommunityPath) then SourceMattermost
    else SourceThirdParty
  }

  /** Bundling wins over everything else: the marketplace flag and the
      homepage do not matter for a bundled ID. */
  lemma BundledWins(pluginId: string, inMarketplace: bool, homepageUrl: string, inMarketplace': bool, homepageUrl': string)
    requires pluginId in BundledPlugins
    ensures ClassifyPluginSource(pluginId, inMarketplace, homepageUrl) ==
            ClassifyPluginSource(pluginId, inMarketplace', homepageUrl') == SourceBundled
  {
  }

  lemma OnlyLeadingG(i: int)
    requires 1 <= i <= |CommunityPath| - |VendorPath|
    ensures CommunityPath[i] != 'g'
  {
    assert i in {1, 2, 3, 4, 5, 6, 7, 8, 9, 10};
  }

  /** The community path does not contain the vendor path, although it looks
      alike: a community homepage fails the vendor test by itself, and the
      exclusion only decides URLs that contain both paths. */
  lemma CommunityPathIsNotVendorPath()
    ensures !Contains(CommunityPath, VendorPath)
  {
    forall i | 0 <= i
      ensures !OccursAt(CommunityPath, VendorPath, i)
    {
      if i + |VendorPath| <= |CommunityPath| {
        if i == 0 {
          assert CommunityPath[i..i + |VendorPath|][21] != VendorPath[21];
        } else {
          OnlyLeadingG(i);
          assert CommunityPath[i..i + |VendorPath|][0] != VendorPath[0];
        }
      }
    }
    ContainsIffOccurs(CommunityPath, VendorPath);
  }

  /** A URL holding both paths is where the exclusion matters: it is
      third-party, while the vendor path alone makes a vendor plugin. */
  lemma ExclusionDecidesMixedUrls(pluginId: string, prefix: string, middle: string, suffix: string)
    requires pluginId !in BundledPlugins
    ensures ClassifyPluginSource(pluginId, false, prefix + CommunityPath + middle + VendorPath + suffix) == SourceThirdParty
    ensures ClassifyPluginSource(pluginId, false, prefix + VendorPath + suffix) == SourceMattermost
      || Contains(prefix + VendorPath + suffix, CommunityPath)
  {
    var url := prefix + CommunityPath + middle + VendorPath + suffix;
    InfixContained(prefix, CommunityPath, middle + VendorPath + suffix);
    assert url == prefix + CommunityPath + (middle + VendorPath + suffix);
    InfixContained(prefix, VendorPath, suffix);
  }

  /** Cases from the Go code's classification tests: bundled IDs stay bundled even
      when the marketplace lists them. */
  lemma ClassifyBundledExamples()
    ensures ClassifyPluginSource("github", true, "") == SourceBundled
    ensures ClassifyPluginSource("com.mattermost.calls", true, "") == SourceBundled
  {
  }

  /** Cases from the Go code's classification tests: a listed plugin that is not
      bundled. */
  lemma ClassifyMarketplaceExample()
    ensures ClassifyPluginSource("com.mattermost.confluence", true, "") == SourceMarketplace
  {
  }

  /** From the Go code's classification tests: a homepage in the community
      organisation makes an unlisted plugin third-party, whatever surrounds
      the path in the URL. */
  lemma CommunityHomepageIsThirdParty(pluginId: string, prefix: string, suffix: string)
    requires pluginId !in BundledPlugins
    ensures ClassifyPluginSource(pluginId, false, prefix + CommunityPath + suffix) == SourceThirdParty
  {
    InfixContained(prefix, CommunityPath, suffix);
  }

  // ---------------------------------------------------------------------------
  // Per-plugin report

  /** The report for one installed plugin, given the catalogue. */
  function ReportFor(p: InstalledPlugin, catalogue: map<string, MarketplacePlugin>): (r: PluginReport)
    ensures r.pluginId == p.id && r.name == p.name && r.installedVersion == p.version && r.status == p.status
    ensures r.pluginType == DeterminePluginType(p.hasServer, p.hasWebapp)
    ensures r.source == ClassifyPluginSource(p.id, p.id in catalogue, p.homepageUrl)
    ensures r.source == SourceMarketplace ==>
      && r.latestVersion == catalogue[p.id].version
      && r.marketplaceUrl == catalogue[p.id].homepageUrl
      && r.updateAvailJson == Some(CompareVersions(p.version, catalogue[p.id].version) < 0)
    ensures r.source != SourceMarketplace ==>
      r.latestVersion == "" && r.marketplaceUrl == "" && r.updateAvailJson == None
    ensures WellFormedReport(r)
  {
    var source := ClassifyPluginSource(p.id, p.id in catalogue, p.homepageUrl);
    var pluginType := DeterminePluginType(p.hasServer, p.hasWebapp);
    if source == SourceMarketplace then
      var mp := catalogue[p.id];
      var outdated := CompareVersions(p.version, mp.version) < 0;
      PluginReport(p.id, p.name, p.version, mp.version, if outdated then "true" else "false",
                   Some(outdated), p.status, source, mp.homepageUrl, pluginType)
    else
      PluginReport(p.id, p.name, p.version, "", "unknown", None, p.status, source, "", pluginType)
  }

  /** The reports of all installed plugins, in input order. */
  function ReportsFor(installed: seq<InstalledPlugin>, catalogue: map<string, MarketplacePlugin>): (rs: seq<PluginReport>)
    ensures |rs| == |installed|
    ensures forall i :: 0 <= i < |rs| ==> rs[i].pluginId == installed[i].id && WellFormedReport(rs[i])
  {
    seq(|installed|, i requires 0 <= i < |installed| => ReportFor(installed[i], catalogue))
  }

  /** The report-building loop. */
  method BuildReports(installed: seq<InstalledPlugin>, catalogue: map<string, MarketplacePlugin>)
    returns (reports: seq<PluginReport>)
    ensures reports == ReportsFor(installed, catalogue)
  {
    reports := [];
    var i := 0;
    while i < |installed|
      invariant 0 <= i <= |installed|
      invariant reports == ReportsFor(installed[..i], catalogue)
    {
      reports := reports + [ReportFor(installed[i], catalogue)];
      i := i + 1;
    }
    assert installed[..i] == installed;
  }

  // ---------------------------------------------------------------------------
  // The outdated-only filter

  /** A report survives the filter if an update is available or it is not
      a marketplace plugin. */
  predicate Kept(r: PluginReport)
    ensures Kept(r) <==> !IsUpToDate(r)
  {
    r.updateAvailable == "true" || r.source != SourceMarketplace
  }

  /** The reports that survive, in their original order. */
  function OutdatedOnly(rs: seq<PluginReport>): (kept: seq<PluginReport>)
    ensures |kept| <= |rs|
    ensures forall i :: 0 <= i < |kept| ==> Kept(kept[i]) && kept[i] in rs
    decreases |rs|
  {
    if rs == [] then []
    else OutdatedOnly(rs[..|rs| - 1]) + (if Kept(rs[|rs| - 1]) then [rs[|rs| - 1]] else [])
  }

  /** The filtering loop. */
  method FilterOutdated(reports: seq<PluginReport>) returns (filtered: seq<PluginReport>)
    ensures filtered == OutdatedOnly(reports)
  {
    filtered := [];
    var i := 0;
    while i < |reports|
      invariant 0 <= i <= |reports|
      invariant filtered == OutdatedOnly(reports[..i])
    {
      assert reports[..i + 1][..i] == reports[..i];
      if reports[i].updateAvailable == "true" || reports[i].source != SourceMarketplace {
        filtered := filtered + [reports[i]];
      }
      i := i + 1;
    }
    assert reports[..i] == reports;
  }

  /** A report is in the filtered list exactly when it is in the input and
      passes the filter. */
  lemma {:induction false} OutdatedOnlyMembers(rs: seq<PluginReport>, x: PluginReport)
    ensures x in OutdatedOnly(rs) <==> x in rs && Kept(x)
    decreases |rs|
  {
    if rs != [] {
      OutdatedOnlyMembers(rs[..|rs| - 1], x);
      assert rs == rs[..|rs| - 1] + [rs[|rs| - 1]];
    }
  }

  // ---------------------------------------------------------------------------
  // Counting

  /** How many reports satisfy `p`. */
  function CountWhere(rs: seq<PluginReport>, p: PluginReport -> bool): (n: nat)
    ensures n <= |rs|
    decreases |rs|
  {
    if rs == [] then 0 else CountWhere(rs[..|rs| - 1], p) + (if p(rs[|rs| - 1]) then 1 else 0)
  }

  lemma {:induction false} CountAppend(a: seq<PluginReport>, b: seq<PluginReport>, p: PluginReport -> bool)
    ensures CountWhere(a + b, p) == CountWhere(a, p) + CountWhere(b, p)
    decreases |b|
  {
    if b == [] {
      assert a + b == a;
    } else {
      var b' := b[..|b| - 1];
      assert (a + b)[..|a + b| - 1] == a + b';
      CountAppend(a, b', p);
    }
  }

  /** Counting is blind to order: a permutation has the same counts. */
  lemma {:induction false} CountPermutation(a: seq<PluginReport>, b: seq<PluginReport>, p: PluginReport -> bool)
    requires multiset(a) == multiset(b)
    ensures CountWhere(a, p) == CountWhere(b, p)
    decreases |a|
  {
    if a == [] {
      assert |b| == |multiset(b)| == 0;
    } else {
      var a' := a[..|a| - 1];
      var x := a[|a| - 1];
      assert a == a' + [x];
      assert x in multiset(b);
      var k :| 0 <= k < |b| && b[k] == x;
      var b' := b[..k] + b[k + 1..];
      assert b == b[..k] + [x] + b[k + 1..];
      assert multiset(b') == multiset(b) - multiset{x};
      assert multiset(a') == multiset(a) - multiset{x};
      CountPermutation(a', b', p);
      CountAppend(b[..k], [x], p);
      CountAppend(b[..k] + [x], b[k + 1..], p);
      CountAppend(b[..k], b[k + 1..], p);
      CountAppend(a', [x], p);
    }
  }

  /** When `p` splits into the disjoint cases `q` and `r` on every report
      of `rs`, its count is the sum of theirs. */
  lemma {:induction false} CountSplit(rs: seq<PluginReport>, p: PluginReport -> bool, q: PluginReport -> bool, r: PluginReport -> bool)
    requires forall i :: 0 <= i < |rs| ==> (p(rs[i]) <==> q(rs[i]) || r(rs[i])) && !(q(rs[i]) && r(rs[i]))
    ensures CountWhere(rs, p) == CountWhere(rs, q) + CountWhere(rs, r)
    decreases |rs|
  {
    if rs != [] {
      CountSplit(rs[..|rs| - 1], p, q, r);
    }
  }

  /** When `q` is the negation of `p` on every report of `rs`, the two
      counts add up to the length. */
  lemma {:induction false} CountComplement(rs: seq<PluginReport>, p: PluginReport -> bool, q: PluginReport -> bool)
    requires forall i :: 0 <= i < |rs| ==> (q(rs[i]) <==> !p(rs[i]))
    ensures CountWhere(rs, p) + CountWhere(rs, q) == |rs|
    decreases |rs|
  {
    if rs != [] {
      CountComplement(rs[..|rs| - 1], p, q);
    }
  }

  /** No report of `rs` satisfies `p`, so none is counted. */
  lemma {:induction false} CountNone(rs: seq<PluginReport>, p: PluginReport -> bool)
    requires forall i :: 0 <= i < |rs| ==> !p(rs[i])
    ensures CountWhere(rs, p) == 0
    decreases |rs|
  {
    if rs != [] {
      CountNone(rs[..|rs| - 1], p);
    }
  }

  /** Reports that always survive the filter are counted the same before
      and after it. */
  lemma {:induction false} CountOutdatedOnly(rs: seq<PluginReport>, p: PluginReport -> bool)
    requires forall x :: p(x) ==> Kept(x)
    ensures CountWhere(OutdatedOnly(rs), p) == CountWhere(rs, p)
    decreases |rs|
  {
    if rs != [] {
      var last := rs[|rs| - 1];
      CountOutdatedOnly(rs[..|rs| - 1], p);
      CountAppend(OutdatedOnly(rs[..|rs| - 1]), if Kept(last) then [last] else [], p);
    }
  }

  // ---------------------------------------------------------------------------
  // The summary

  predicate IsMarketplace(r: PluginReport) { r.source == SourceMarketplace }
  predicate IsBundled(r: PluginReport) { r.source == SourceBundled }
  predicate IsMattermost(r: PluginReport) { r.source == SourceMattermost }
  predicate IsThirdParty(r: PluginReport) { r.source == SourceThirdParty }
  predicate IsOutdated(r: PluginReport) { IsMarketplace(r) && r.updateAvailable == "true" }
  predicate IsUpToDate(r: PluginReport) { IsMarketplace(r) && r.updateAvailable != "true" }
  predicate IsUnknown(r: PluginReport) { IsBundled(r) || IsMattermost(r) || IsThirdParty(r) }
  predicate IsEnabled(r: PluginReport) { r.status == "enabled" }
  predicate IsDisabled(r: PluginReport) { r.status != "enabled" }

  predicate AllKnown(rs: seq<PluginReport>) {
    forall i :: 0 <= i < |rs| ==> KnownSource(rs[i].source)
  }

  /** The summary of a list of reports, counter by counter; the reference
      definition for the counting loop. */
  function SummaryOf(rs: seq<PluginReport>): (s: AuditSummary)
    ensures s.total == |rs|
    ensures s.outdated + s.upToDate == s.marketplace
    ensures s.enabled + s.disabled == s.total
    ensures AllKnown(rs) ==> s.marketplace + s.bundled + s.mattermostPlugin + s.thirdParty == s.total
    ensures AllKnown(rs) ==> s.unknown == s.total - s.marketplace
  {
    CountSplit(rs, IsMarketplace, IsOutdated, IsUpToDate);
    CountComplement(rs, IsEnabled, IsDisabled);
    if AllKnown(rs) then
      CountComplement(rs, IsMarketplace, IsUnknown);
      CountSplit(rs, IsUnknown, IsBundled, r => IsMattermost(r) || IsThirdParty(r));
      CountSplit(rs, r => IsMattermost(r) || IsThirdParty(r), IsMattermost, IsThirdParty);
      SummaryCounts(rs)
    else
      SummaryCounts(rs)
  }

  function SummaryCounts(rs: seq<PluginReport>): AuditSummary {
    AuditSummary(
      |rs|,
      CountWhere(rs, IsMarketplace),
      CountWhere(rs, IsBundled),
      CountWhere(rs, IsMattermost),
      CountWhere(rs, IsThirdParty),
      CountWhere(rs, IsOutdated),
      CountWhere(rs, IsUpToDate),
      CountWhere(rs, IsUnknown),
      CountWhere(rs, IsEnabled),
      CountWhere(rs, IsDisabled))
  }

  /** The single counting pass. */
  method Summarize(reports: seq<PluginReport>) returns (summary: AuditSummary)
    ensures summary == SummaryOf(reports)
  {
    summary := AuditSummary(0, 0, 0, 0, 0, 0, 0, 0, 0, 0);
    var i := 0;
    while i < |reports|
      invariant 0 <= i <= |reports|
      invariant summary == SummaryCounts(reports[..i])
    {
      var r := reports[i];
      assert reports[..i + 1][..i] == reports[..i];
      summary := summary.(total := summary.total + 1);
      if r.source == SourceMarketplace {
        summary := summary.(marketplace := summary.marketplace + 1);
        if r.updateAvailable == "true" {
          summary := summary.(outdated := summary.outdated + 1);
        } else {
          summary := summary.(upToDate := summary.upToDate + 1);
        }
      } else if r.source == SourceBundled {
        summary := summary.(bundled := summary.bundled + 1, unknown := summary.unknown + 1);
      } else if r.source == SourceMattermost {
        summary := summary.(mattermostPlugin := summary.mattermostPlugin + 1, unknown := summary.unknown + 1);
      } else if r.source == SourceThirdParty {
        summary := summary.(thirdParty := summary.thirdParty + 1, unknown := summary.unknown + 1);
      }
      if r.status == "enabled" {
        summary := summary.(enabled := summary.enabled + 1);
      } else {
        summary := summary.(disabled := summary.disabled + 1);
      }
      i := i + 1;
    }
    assert reports[..i] == reports;
  }

  // ---------------------------------------------------------------------------
  // Ordering

  /** Group rank: marketplace, vendor, bundled, third-party. Any other
      source falls back to 0, as a missing key does in Go's map. */
  function Rank(source: string): (k: nat)
    ensures k <= 3
    ensures source == SourceMarketplace ==> k == 0
    ensures KnownSource(source) && source != SourceMarketplace ==> k > 0
    ensures source == SourceMattermost ==> k == 1
    ensures source == SourceBundled ==> k == 2
    ensures source == SourceThirdParty ==> k == 3
    ensures !KnownSource(source) ==> k == 0
  {
    if source == SourceMattermost then 1
    else if source == SourceBundled then 2
    else if source == SourceThirdParty then 3
    else 0
  }

  /** The sort's comparison: by group, then by lower-cased name. */
  predicate SortLess(a: PluginReport, b: PluginReport)
    ensures SortLess(a, b) ==> Rank(a.source) <= Rank(b.source)
    ensures Rank(a.source) < Rank(b.source) ==> SortLess(a, b)
  {
    var ra, rb := Rank(a.source), Rank(b.source);
    if ra != rb then ra < rb else LexLess(ToLower(a.name), ToLower(b.name))
  }

  /** No later report sorts strictly before an earlier one. */
  predicate Sorted(rs: seq<PluginReport>) {
    forall i, j :: 0 <= i < j < |rs| ==> !SortLess(rs[j], rs[i])
  }

  lemma SortLessAsymmetric(a: PluginReport, b: PluginReport)
    requires SortLess(a, b)
    ensures !SortLess(b, a)
  {
    if Rank(a.source) == Rank(b.source) {
      LexCompareAntisymmetric(ToLower(a.name), ToLower(b.name));
    }
  }

  /** "Does not sort before" is transitive. */
  lemma NotLessTransitive(a: PluginReport, b: PluginReport, c: PluginReport)
    requires !SortLess(b, a) && !SortLess(c, b)
    ensures !SortLess(c, a)
  {
    var la, lb, lc := ToLower(a.name), ToLower(b.name), ToLower(c.name);
    if Rank(a.source) == Rank(b.source) == Rank(c.source) {
      LexCompareAntisymmetric(la, lb);
      LexCompareAntisymmetric(lb, lc);
      LexCompareAntisymmetric(la, lc);
      LexCompareTransitive(la, lb, lc);
    }
  }

  /** What sortedness means for the output: groups appear in rank order,
      and names ascend, ignoring case, within a group. */
  lemma SortedGroups(rs: seq<PluginReport>, i: int, j: int)
    requires Sorted(rs) && 0 <= i < j < |rs|
    ensures Rank(rs[i].source) <= Rank(rs[j].source)
    ensures Rank(rs[i].source) == Rank(rs[j].source) ==>
      LexCompare(ToLower(rs[i].name), ToLower(rs[j].name)) <= 0
  {
    assert !SortLess(rs[j], rs[i]);
    LexCompareAntisymmetric(ToLower(rs[i].name), ToLower(rs[j].name));
  }

  /** Sorts the reports in place. The Go code uses an unstable library sort,
      so only sortedness and permutation are promised, not the relative
      order of equal reports. */
  method SortReports(a: array<PluginReport>)
    modifies a
    ensures Sorted(a[..])
    ensures multiset(a[..]) == multiset(old(a[..]))
  {
    var i := 0;
    while i < a.Length
      invariant 0 <= i <= a.Length
      invariant forall k, l :: 0 <= k < l < i ==> !SortLess(a[l], a[k])
      invariant multiset(a[..]) == multiset(old(a[..]))
    {
      InsertBack(a, i);
      i := i + 1;
    }
  }

  /** One insertion step: moves `a[i]` down into the sorted prefix before it. */
  method InsertBack(a: array<PluginReport>, i: int)
    requires 0 <= i < a.Length
    requires forall k, l :: 0 <= k < l < i ==> !SortLess(a[l], a[k])
    modifies a
    ensures forall k, l :: 0 <= k < l <= i ==> !SortLess(a[l], a[k])
    ensures multiset(a[..]) == multiset(old(a[..]))
  {
    var j := i;
    while j > 0 && SortLess(a[j], a[j - 1])
      invariant 0 <= j <= i
      invariant forall k, l :: 0 <= k < l <= i && k != j && l != j ==> !SortLess(a[l], a[k])
      invariant forall l :: j < l <= i ==> !SortLess(a[l], a[j])
      invariant multiset(a[..]) == multiset(old(a[..]))
    {
      SortLessAsymmetric(a[j], a[j - 1]);
      a[j - 1], a[j] := a[j], a[j - 1];
      j := j - 1;
    }
    if j > 0 {
      forall k | 0 <= k < j - 1 {
        NotLessTransitive(a[k], a[j - 1], a[j]);
      }
    }
  }

  // ---------------------------------------------------------------------------
  // The audit run

  /** The reports the run keeps, before sorting. */
  function Selected(installed: seq<InstalledPlugin>, catalogue: map<string, MarketplacePlugin>, opts: AuditOptions): seq<PluginReport> {
    var all := ReportsFor(installed, catalogue);
    if opts.outdatedOnly then OutdatedOnly(all) else all
  }

  /** A correct result: the selected reports in sorted order, with the summary
      counted over exactly those reports. */
  predicate AuditOutcome(installed: seq<InstalledPlugin>, catalogue: map<string, MarketplacePlugin>, opts: AuditOptions, result: AuditResult) {
    && multiset(result.plugins) == multiset(Selected(installed, catalogue, opts))
    && Sorted(result.plugins)
    && result.summary == SummaryOf(result.plugins)
  }

  /** The audit. The two fetches are inputs: a failed fetch of the installed
      plugins is returned as is and the catalogue is not consulted, a failed
      catalogue fetch is returned as is, and otherwise the result is built. */
  method RunAudit(
    installed: Result<seq<InstalledPlugin>, CLIError>,
    catalogue: Result<map<string, MarketplacePlugin>, CLIError>,
    opts: AuditOptions)
    returns (res: Result<AuditResult, CLIError>)
    ensures installed.Failure? ==> res == Failure(installed.error)
    ensures installed.Success? && catalogue.Failure? ==> res == Failure(catalogue.error)
    ensures installed.Success? && catalogue.Success? ==>
      res.Success? && AuditOutcome(installed.value, catalogue.value, opts, res.value)
  {
    if installed.Failure? {
      return Failure(installed.error);
    }
    if catalogue.Failure? {
      return Failure(catalogue.error);
    }
    var reports := BuildReports(installed.value, catalogue.value);
    if opts.outdatedOnly {
      reports := FilterOutdated(reports);
    }
    var a := new PluginReport[|reports|](i requires 0 <= i < |reports| => reports[i]);
    assert a[..] == reports;
    SortReports(a);
    var summary := Summarize(a[..]);
    return Success(AuditResult(a[..], summary));
  }

  // ---------------------------------------------------------------------------
  // Properties of a run

  /** Every selected report is well-formed. */
  lemma SelectedWellFormed(installed: seq<InstalledPlugin>, catalogue: map<string, MarketplacePlugin>, opts: AuditOptions, r: PluginReport)
    requires r in Selected(installed, catalogue, opts)
    ensures WellFormedReport(r)
  {
    if opts.outdatedOnly {
      OutdatedOnlyMembers(ReportsFor(installed, catalogue), r);
    }
  }

  /** The summary of a run adds up: sources partition the total, outdated
      and up-to-date partition the marketplace plugins, unknown freshness is
      everything else, and enabled and disabled partition the total. */
  lemma SummaryAddsUp(installed: seq<InstalledPlugin>, catalogue: map<string, MarketplacePlugin>, opts: AuditOptions, result: AuditResult)
    requires AuditOutcome(installed, catalogue, opts, result)
    ensures var s := result.summary;
      && s.total == |result.plugins| == |Selected(installed, catalogue, opts)|
      && s.marketplace + s.bundled + s.mattermostPlugin + s.thirdParty == s.total
      && s.outdated + s.upToDate == s.marketplace
      && s.unknown == s.total - s.marketplace
      && s.enabled + s.disabled == s.total
  {
    var rs := result.plugins;
    forall i | 0 <= i < |rs|
      ensures KnownSource(rs[i].source)
    {
      assert rs[i] in multiset(Selected(installed, catalogue, opts));
      SelectedWellFormed(installed, catalogue, opts, rs[i]);
    }
    assert |multiset(rs)| == |multiset(Selected(installed, catalogue, opts))|;
  }

  /** Without the filter every installed plugin gets exactly one report. */
  lemma EveryPluginReported(installed: seq<InstalledPlugin>, catalogue: map<string, MarketplacePlugin>, opts: AuditOptions, result: AuditResult)
    requires AuditOutcome(installed, catalogue, opts, result) && !opts.outdatedOnly
    ensures |result.plugins| == |installed|
    ensures forall p :: p in installed ==> ReportFor(p, catalogue) in result.plugins
  {
    assert |multiset(result.plugins)| == |multiset(ReportsFor(installed, catalogue))|;
    forall p | p in installed
      ensures ReportFor(p, catalogue) in result.plugins
    {
      var k :| 0 <= k < |installed| && installed[k] == p;
      assert ReportFor(p, catalogue) == ReportsFor(installed, catalogue)[k];
      assert ReportFor(p, catalogue) in multiset(result.plugins);
    }
  }

  /** With the filter, no up-to-date marketplace plugin remains: every
      marketplace report left has an update available. */
  lemma OutdatedOnlyDropsUpToDate(installed: seq<InstalledPlugin>, catalogue: map<string, MarketplacePlugin>, opts: AuditOptions, result: AuditResult)
    requires AuditOutcome(installed, catalogue, opts, result) && opts.outdatedOnly
    ensures forall r :: r in result.plugins && r.source == SourceMarketplace ==> r.updateAvailable == "true"
    ensures result.summary.upToDate == 0
    ensures result.summary.outdated == result.summary.marketplace
  {
    FilteredAreKept(installed, catalogue, opts, result);
    CountNone(result.plugins, IsUpToDate);
  }

  lemma FilteredAreKept(installed: seq<InstalledPlugin>, catalogue: map<string, MarketplacePlugin>, opts: AuditOptions, result: AuditResult)
    requires AuditOutcome(installed, catalogue, opts, result) && opts.outdatedOnly
    ensures forall i :: 0 <= i < |result.plugins| ==> Kept(result.plugins[i])
  {
    var rs := result.plugins;
    var all := ReportsFor(installed, catalogue);
    forall i | 0 <= i < |rs|
      ensures Kept(rs[i])
    {
      assert rs[i] in multiset(OutdatedOnly(all));
      OutdatedOnlyMembers(all, rs[i]);
    }
  }

  /** The filter never drops a plugin whose freshness is unknown: the bundled,
      vendor and third-party counts are those of all installed plugins. */
  lemma FilterKeepsUnknown(installed: seq<InstalledPlugin>, catalogue: map<string, MarketplacePlugin>, opts: AuditOptions, result: AuditResult)
    requires AuditOutcome(installed, catalogue, opts, result)
    ensures var all := ReportsFor(installed, catalogue);
      && result.summary.bundled == CountWhere(all, IsBundled)
      && result.summary.mattermostPlugin == CountWhere(all, IsMattermost)
      && result.summary.thirdParty == CountWhere(all, IsThirdParty)
      && result.summary.unknown == CountWhere(all, IsUnknown)
  {
    var all := ReportsFor(installed, catalogue);
    var sel := Selected(installed, catalogue, opts);
    CountPermutation(result.plugins, sel, IsBundled);
    CountPermutation(result.plugins, sel, IsMattermost);
    CountPermutation(result.plugins, sel, IsThirdParty);
    CountPermutation(result.plugins, sel, IsUnknown);
    if opts.outdatedOnly {
      CountOutdatedOnly(all, IsBundled);
      CountOutdatedOnly(all, IsMattermost);
      CountOutdatedOnly(all, IsThirdParty);
      CountOutdatedOnly(all, IsUnknown);
    }
  }

  /** No installed plugins: an empty report with an all-zero summary. */
  lemma EmptyAudit(catalogue: map<string, MarketplacePlugin>, opts: AuditOptions, result: AuditResult)
    requires AuditOutcome([], catalogue, opts, result)
    ensures result.plugins == []
    ensures result.summary == AuditSummary(0, 0, 0, 0, 0, 0, 0, 0, 0, 0)
  {
    assert ReportsFor([], catalogue) == [];
    assert |multiset(result.plugins)| == 0;
  }
}
