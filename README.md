# mm-plugin-audit, modelled in Dafny

This is a Dafny model of the plugin audit engine of `mm-plugin-audit`, a command-line tool that lists the plugins installed on a Mattermost server and sorts them by provenance:

- **marketplace**: listed in the marketplace catalogue;
- **mattermost-plugin**: the vendor's own, recognised by its homepage;
- **bundled**: shipped with the server;
- **third-party**: everything else.

For marketplace plugins the tool compares the installed version with the catalogue's latest version to tell whether an update is available.

The model covers five pieces:

- The classification-and-comparison engine, including the whole audit run: build a report per plugin, apply the optional outdated-only filter, sort in place, count.
- The shaping of the result for the three output formats.
- The mapping of API failures to CLI errors.
- The two client-side data transformations, the installed-plugin listing and the paged catalogue.
- The error values and exit codes.

Files, in dependency order:

- `wrappers.dfy` — `Option` and `Result`.
- `text.dfy` — string helpers the Go code takes from its standard library:
  - substring search;
  - ASCII lower-casing;
  - `%d` decimal printing and its inverse;
  - byte-wise string order.
- `errors.dfy` — the exit codes, `CLIError`, `Error`, `Unwrap` and the four constructors.
- `semver.dfy` — a parser, printer and precedence function for version strings in the form `golang.org/x/mod/semver` accepts. That library is not part of this model. It is modelled as follows:
  - a `v` prefix is required;
  - `vMAJOR` and `vMAJOR.MINOR` are shorthands for `.0`;
  - numbers have no leading zeros;
  - pre-release identifiers are dot-separated;
  - build metadata is checked and then ignored;
  - precedence follows section 11 of Semantic Versioning 2.0.0.
- `audit.dfy`:
  - `NormalizeVersion`, `CompareVersions`, `DeterminePluginType`, `ClassifyPluginSource` and the bundled-ID set;
  - the report, summary and result types;
  - `RunAudit`, with its four loops as methods: `BuildReports`, `FilterOutdated`, `SortReports` (an in-place sort of an array) and `Summarize`.
- `output.dfy` — shapes what is written:
  - format dispatch;
  - the four-way partition and the table's lines;
  - the CSV records;
  - the JSON plugin list.
- `client.dfy`:
  - `classifyAPIError`;
  - the active/inactive mapping of `GetPlugins`;
  - the paging loop of `GetMarketplacePlugins`, with the server's pages supplied as a sequence.

The update flag of a report is kept twice, as in the Go code:

- as the string `"true"`, `"false"` or `"unknown"`;
- as a nullable bool (`Option<bool>`).

`WellFormedReport` states that the two agree, among other things. Every report the engine builds satisfies it.

## Model

| member | source | states |
|---|---|---|
| Errors.CLIError.Error | errors.go:21-26 | The result starts with the message; it is the message alone exactly when no error is wrapped; otherwise the rest is ": " followed by the wrapped error's text |
| Errors.CLIError.Unwrap | errors.go:28-30 | No wrapped error exactly when the printed error is the bare message; a wrapped error is the text after ": " |
| Errors.ConfigError | errors.go:32-34 | Code is ExitConfigError (1); message and wrapped error are stored unchanged, and `Unwrap` gives the wrapped error back |
| Errors.ApiError | errors.go:36-38 | Code is ExitAPIError (2); message and wrapped error stored unchanged, `Unwrap` returns the wrapped error |
| Errors.MarketplaceError | errors.go:40-42 | Code is ExitMarketplaceError (3); message and wrapped error stored unchanged, `Unwrap` returns the wrapped error |
| Errors.OutputError | errors.go:44-46 | Code is ExitOutputError (4); message and wrapped error stored unchanged, `Unwrap` returns the wrapped error |
| Errors.ExitCodesDistinct | errors.go:7-11 | The exit codes are 0, 1, 2, 3, 4; no two constructors can build the same error |
| Text.ToLower | audit.go:226 | Length is kept and each character is lower-cased (ASCII letters only) |
| Text.ToLowerIdempotent | output.go:14 | Lower-casing twice is the same as once |
| Text.Contains | audit.go:132-133 | A string only contains needles no longer than itself |
| Text.ContainsIffOccurs | audit.go:132-133 | The substring test holds exactly when the needle occurs at some index |
| Text.NatToDecimal | output.go:108-118 | The printed number is non-empty, all digits, has no leading zero, and is "0" only for 0 |
| Text.DecimalRoundTrip | output.go:108-118 | Reading a printed number back gives the number |
| Text.NatToDecimalInjective | output.go:43 | Different counts print differently |
| Text.LexCompare | audit.go:226 | Three-way string comparison: in -1..1, 0 exactly for equal strings |
| Text.LexCompareAntisymmetric | audit.go:226 | Swapping the arguments negates the comparison |
| Text.LexCompareTransitive | audit.go:226 | "Not greater than" is transitive |
| Semver.Compare | audit.go:102 | The result is -1, 0 or 1, and 0 exactly for equal versions (build metadata is not part of a version) |
| Semver.CompareAntisymmetric | audit.go:102 | Swapping the versions negates the result |
| Semver.CompareTransitive | audit.go:102 | "Not newer than" is transitive, so precedence is a total order |
| Semver.PrereleaseBelowRelease | audit.go:102 | A pre-release has lower precedence than its release (section 11.3 of Semantic Versioning 2.0.0) |
| Semver.Parse | audit.go:95 | Only strings of the form "v" followed by a digit are accepted |
| Semver.IsValid | audit.go:95 | A valid version starts with "v" and a digit |
| Semver.ParseFormat | audit.go:95 | Printing a well-formed version and parsing it back gives the version |
| Semver.ParseWellFormed | audit.go:95 | Every string the parser accepts gives a well-formed version |
| Audit.UpdateFlag | audit.go:185-197 | The string flag is "true", "false" or "unknown": "true" exactly for an available update, "unknown" exactly when the JSON bool is null |
| Audit.UpdateFlagInjective | audit.go:185-197 | The string spelling of the update flag determines the nullable bool |
| Audit.NormalizeVersion | audit.go:78-86 | "" stays ""; a string starting with "v" is unchanged; any other gets "v" prepended |
| Audit.NormalizeIdempotent | audit.go:78-86 | Normalising twice is the same as once |
| Audit.CompareVersions | audit.go:91-103 | Result in {-1,0,1}. With both strings valid versions after normalising, it is their precedence. Otherwise it is never 1, and it is 0 exactly when the raw strings are equal |
| Audit.CompareVersionsReflexive | audit.go:91-103 | Any string compares equal to itself |
| Audit.CompareVersionsAntisymmetric | audit.go:91-103 | On valid versions, swapping negates the result, and 0 means the parsed versions are equal |
| Audit.CompareVersionsTransitive | audit.go:91-103 | On valid versions, "not newer than" is transitive |
| Audit.FallbackIsAsymmetric | audit.go:95-100 | A malformed version and a valid one each compare as older than the other; equal malformed strings compare 0 |
| Audit.CompareVersionsPrefixExample | audit.go:91-103 | "1.0.0" equals "v1.0.0" |
| Audit.CompareVersionsPatchExample | audit.go:91-103 | 1.0.0 is older than 1.0.1 |
| Audit.CompareVersionsMajorExample | audit.go:91-103 | 1.0.0 is older than 2.0.0 and 2.0.0 is newer than 1.0.0 |
| Audit.CompareVersionsNumericExample | audit.go:91-103 | 1.9.0 is older than 1.10.0 (numbers compare as numbers) |
| Audit.CompareVersionsPrereleaseExample | audit.go:91-103 | 1.0.0-rc1 is older than 1.0.0 |
| Audit.DeterminePluginType | audit.go:106-117 | The result is one of "both", "server", "webapp", "unknown" |
| Audit.PluginTypeRoundTrip | audit.go:106-117 | The component flags can be read back from the type string, so each combination has its own string |
| Audit.ClassifyPluginSource | audit.go:125-137 | Bundled exactly for a bundled ID; marketplace exactly when not bundled and listed; vendor exactly when neither and the homepage has the vendor path and not the community path; third-party otherwise |
| Audit.BundledWins | audit.go:126-128 | For a bundled ID, the marketplace flag and homepage do not matter |
| Audit.CommunityPathIsNotVendorPath | audit.go:132-133 | The community path does not contain the vendor path, so the exclusion only decides URLs containing both |
| Audit.ExclusionDecidesMixedUrls | audit.go:132-135 | A URL with the community path and the vendor path is third-party; the vendor path without the community path makes a vendor plugin |
| Audit.ClassifyBundledExamples | audit.go:20-35 | "github" and "com.mattermost.calls" are bundled even when listed in the marketplace |
| Audit.ClassifyMarketplaceExample | audit.go:129-131 | A listed, unbundled ID is a marketplace plugin |
| Audit.CommunityHomepageIsThirdParty | audit.go:132-136 | An unlisted, unbundled plugin whose homepage has the community path is third-party |
| Audit.ReportFor | audit.go:170-199 | The report copies ID, name, version and status and sets the type. A marketplace report carries the catalogue's version and URL, with the flag "true" exactly when the installed version is older. Any other report has "unknown", no bool and empty latest version and URL. Every report is well-formed |
| Audit.ReportsFor | audit.go:169-200 | One report per installed plugin, in order, with that plugin's ID, and every report is well-formed |
| Audit.BuildReports | audit.go:169-201 | One report per installed plugin, in input order |
| Audit.OutdatedOnly | audit.go:204-212 | The filter never grows the list, and every report it keeps came from the list and has an update available or a non-marketplace source |
| Audit.FilterOutdated | audit.go:204-212 | The result is the ordered filter of the reports with an update available or a non-marketplace source |
| Audit.Kept | audit.go:204-209 | A report is kept exactly when it is not counted as an up-to-date marketplace plugin |
| Audit.OutdatedOnlyMembers | audit.go:204-212 | A report survives the filter exactly when it has an update available or is not from the marketplace |
| Audit.CountPermutation | audit.go:215-227 | Reordering the reports does not change any count |
| Audit.CountOutdatedOnly | audit.go:204-212 | Counts of reports the filter always keeps are unchanged by it |
| Audit.SummaryOf | audit.go:230-256 | Summary identities: the total is the length; outdated plus up-to-date is marketplace; enabled plus disabled is the total. For known sources, the four source counts sum to the total and unknown is total minus marketplace |
| Audit.Summarize | audit.go:230-256 | The single counting pass computes exactly the per-counter counts of the list |
| Audit.Rank | audit.go:215-220 | Marketplace 0, vendor 1, bundled 2, third-party 3 |
| Audit.SortLess | audit.go:221-227 | A lower group rank always sorts first, and a report never sorts before one of a lower rank |
| Audit.SortLessAsymmetric | audit.go:221-227 | The sort's comparison is asymmetric |
| Audit.NotLessTransitive | audit.go:221-227 | "Does not sort before" is transitive |
| Audit.SortedGroups | audit.go:215-227 | In sorted output, ranks never decrease (marketplace 0, vendor 1, bundled 2, third-party 3), and lower-cased names never decrease within a rank |
| Audit.SortReports | audit.go:221-227 | The array ends up sorted and is a permutation of its old contents |
| Audit.RunAudit | audit.go:151-262 | A failed plugin fetch is returned unchanged without consulting the catalogue. A failed catalogue fetch is returned unchanged. Otherwise the plugins are a sorted permutation of the selected reports, and the summary counts exactly them |
| Audit.SelectedWellFormed | audit.go:169-212 | Every report kept by the run is well-formed |
| Audit.SummaryAddsUp | audit.go:230-256 | For a run's result: total is the number of plugins; the source counts sum to it; outdated plus up-to-date is marketplace; unknown is total minus marketplace; enabled plus disabled is total |
| Audit.EveryPluginReported | audit.go:169-201 | Without the filter, there are as many reports as installed plugins and each plugin's report is present |
| Audit.OutdatedOnlyDropsUpToDate | audit.go:204-212 | With the filter, every remaining marketplace plugin has an update available: up-to-date is 0 and outdated equals marketplace |
| Audit.FilterKeepsUnknown | audit.go:204-212 | With or without the filter, the bundled, vendor, third-party and unknown counts equal those over all installed plugins |
| Audit.EmptyAudit | audit.go:169-256 | No installed plugins gives no reports and an all-zero summary |
| Output.FormatKindOf | output.go:13-24 | Table, CSV or JSON exactly when the lower-cased name is "table", "csv" or "json"; nothing otherwise |
| Output.FormatKindIgnoresCase | output.go:14 | The choice depends only on the lower-cased name |
| Output.FormatOutput | output.go:13-24 | An unknown name gives the error "unknown format: " plus the name as given, and no document. Otherwise the document holds exactly the table lines, the CSV records or the JSON content of the result |
| Output.UpdateIndicator | output.go:124-129 | "YES ⚠" exactly when the flag is "true", "No" exactly otherwise |
| Output.IndicatorMatchesComparison | output.go:124-129 | For a marketplace plugin the warning shows exactly when the installed version is older; a newer install shows "No" |
| Output.CapitalizeStatus | output.go:215-223 | "enabled" becomes "Enabled", "disabled" becomes "Disabled", anything else is unchanged |
| Output.CapitalizeOnlyChangesCase | output.go:215-223 | Only letter case changes, and applying it twice is the same as once |
| Output.SectionOf | output.go:29-39 | Each source maps to its own section; any unrecognised source goes to third-party |
| Output.Partition | output.go:28-40 | The four buckets are the ordered filters of the list by section |
| Output.BucketAppend | output.go:28-40 | Bucketing keeps input order: the bucket of a concatenation is the concatenation of buckets |
| Output.BucketMembers | output.go:28-40 | A report is in a bucket exactly when it is in the list and belongs to that section |
| Output.BucketSizes | output.go:28-40 | The four bucket sizes add up to the number of plugins |
| Output.FormatTable | output.go:26-121 | The lines are the four sections in order followed by the summary line |
| Output.MarketplaceRow | output.go:47-51 | One cell per header: name, installed and latest versions, the warning exactly when an update is available, and the capitalised status |
| Output.BasicRow | output.go:63-67 | One cell per header: the marketplace row without its LATEST and UPDATE? cells |
| Output.SectionLines | output.go:43-57 | A section opens with its heading and bucket size and ends with a blank line. An empty bucket has only "(none)" between them; otherwise the column header and one row per report in order |
| Output.SectionCounts | output.go:43-57 | A section has one heading with its bucket size, and one "(none)" line exactly when empty |
| Output.TableHeadings | output.go:43-105 | Headings appear in the order Marketplace, Mattermost, Bundled, Third-Party, each with its bucket size; the number of "(none)" lines is the number of empty buckets |
| Output.EmptyTableShowsNoneFourTimes | output.go:43-105 | With no plugins, "(none)" appears exactly four times |
| Output.TableLines | output.go:43-118 | At least 13 lines; the first is the marketplace heading with its bucket size; the last is the summary line |
| Output.TableSummaryIsStored | output.go:108-118 | The last line prints the stored summary, the same whatever the plugin list |
| Output.SummaryText | output.go:108-117 | The text opens with "Summary: " and a sign for a negative total; SummaryTextReadsBack reads the total back |
| Output.RenderLine | output.go:43-57 | A blank separator renders empty; headings, "(none)" and the summary never do; HeadingReadsBack and JoinTabCount state the heading and row layouts |
| Output.SummaryTextReadsBack | output.go:108-117 | The summary text opens with "Summary: ", then the total's digits, then a space; the digits read back to the total |
| Output.SummaryLineReadsBack | output.go:108-117 | The table's last line renders as that summary text, so its digits read back to the total |
| Output.HeadingReadsBack | output.go:43 | A heading renders as "=== ", the title, " (", the count's digits and ") ==="; the digits read back to the count |
| Output.JoinTabCount | output.go:46-50 | A row of tab-free cells renders with one tab fewer than it has cells |
| Output.RowMatchesHeader | output.go:46-50 | A row of tab-free cells has as many tab-separated columns as its section's header |
| Output.CsvRow | output.go:143-153 | Each record has as many fields as the 9-column header |
| Output.FlagOf | output.go:148 | Reading a tri-state string back gives a bool whose spelling is that string |
| Output.CsvRowRoundTrip | output.go:142-156 | A record reads back to the report it was written from |
| Output.FormatCsv | output.go:131-160 | The header, then one 9-field record per plugin in input order (1 + n records) |
| Output.CsvRecordsRoundTrip | output.go:142-156 | Every record after the header reads back to its plugin |
| Output.ToJsonPlugin | output.go:183-193 | A JSON plugin reads back to the report it was built from whenever the report's two flag spellings agree |
| Output.JsonRoundTrip | output.go:183-193 | A JSON plugin reads back to its report, and its flag is null exactly for "unknown" |
| Output.FormatJson | output.go:180-200 | Same length and order as the plugins, each mapped field by field; the summary is copied verbatim; no plugins give an empty list |
| Client.ClassifyAPIError | client.go:134-156 | The code is config for 401/403 and API otherwise. Messages: fixed for 401 and 403, the URL for 404, the status for 500 and above; otherwise "unable to connect to URL", or "unexpected API error." when the URL is empty. The original error is kept |
| Client.MessagesEmbedDetails | client.go:141-153 | The 404 and connection messages contain the server URL; the 5xx message contains the status code |
| Client.ClassifiedErrorText | client.go:134-156 | The printed error is the message, ": " and the original error's text |
| Client.FailedFetch | client.go:67 | A failed plugin fetch (and, by the same call at line 112, a failed catalogue page) keeps its cause and is a configuration error exactly for 401/403. With no server URL passed, a failure without a recognised status prints "error: unexpected API error.", never the "unable to connect" message |
| Client.Installed | client.go:73-81 | Fields are copied, and the server/webapp flags are true exactly when the component is present |
| Client.GetPlugins | client.go:64-97 | A failed call becomes a classified error. Otherwise the active plugins as "enabled" followed by the inactive as "disabled", length the sum of both |
| Client.StatusFollowsActivation | client.go:70-96 | A plugin is "enabled" exactly when it came from the active list, and "disabled" otherwise |
| Client.AddPage | client.go:115-122 | The per-page loop adds the page's entries in order, skipping those without a manifest |
| Client.AddEntries | client.go:115-122 | Adding entries never removes an ID, and an ID no entry mentions keeps its record |
| Client.AddEntriesKeys | client.go:115-122 | An ID is in the catalogue exactly when it was there before or some entry with a manifest has it |
| Client.LastEntryWins | client.go:115-122 | The record kept for an ID is that of its last entry |
| Client.AddEntriesAppend | client.go:105-128 | Adding two runs of entries one after the other is adding their concatenation |
| Client.CatalogueFrom | client.go:105-128 | Success keeps every ID already collected; a failure is the classified error of a failed page at or after the starting one |
| Client.CatalogueIsFold | client.go:103-130 | A successful paging adds all entries of the pages read, in page order, so later pages overwrite earlier ones |
| Client.StopsAtShortPage | client.go:124-126 | Paging stops at the first page shorter than 200; pages after it, even failing ones, do not change the outcome |
| Client.GetMarketplacePlugins | client.go:100-131 | The loop computes exactly the paging recursion: pages of 200 until a short one, a failed page giving a classified error and no partial catalogue |

## Left out

- The HTTP calls, authentication and `NewMMClient` (client.go:32-61). The responses of `GetPlugins` and of each catalogue page are inputs, and the status code is an optional integer.
- `GetMarketplacePlugins`: a page number past the supplied sequence gets an empty page from the model, which ends the loop. The unbounded loop over a live server is not modelled.
- Logging: `logf` in `RunAudit` and the verbose logger write only to standard error.
- Byte-level rendering:
  - tabwriter column alignment (rows are modelled as lists of cells);
  - CSV quoting;
  - the indented JSON layout;
  - write errors from the writers.
- The table, CSV and JSON writers are modelled as the content they are given, not the bytes.
- `golang.org/x/mod/semver` is not part of this model. Its validity check and precedence are re-modelled from Semantic Versioning 2.0.0 with the `v` prefix and shorthands. Quirks of that library beyond this are not captured.
- Text.ToLower: lower-cases ASCII letters only. Go's `strings.ToLower` also folds non-ASCII letters, so names differing only in non-ASCII case may sort differently.
- Audit.SortReports: an insertion sort stands in for `sort.Slice`, which is not stable. Only sortedness and permutation are promised, not an order among equal keys.
- Column alignment by the tab writer is not modelled: a table row is rendered as its cells joined by tabs (`Output.RenderLine`), before padding.
- Summary counters are unbounded integers; Go's `int` cannot overflow at any realistic plugin count.
- JSON null versus empty list: a Dafny sequence is never null, so "an empty list, not null" holds by construction.
- `MarketplacePlugin` is defined in a file that is not part of this model. It is modelled as the two fields the engine reads: version and homepage URL.
- main.go (flags, environment, password prompt, output file, exit) is not part of this model.
