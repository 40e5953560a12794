/** The client side: mapping API failures to CLI errors, turning the
    server's plugin listing into installed plugins, and paging through the
    marketplace catalogue. The HTTP calls are not modelled: their responses
    are inputs. */
module Client {
  import opened Wrappers
  import opened Text
  import opened Errors
  import opened Audit

  // ---------------------------------------------------------------------------
  // Error classification

  /** The HTTP response that came with a failed call, when there was one. */
  datatype Response = Response(statusCode: int)

  const AuthFailedMessage: string := "error: authentication failed. Check your token or credentials."
  const PermissionDeniedMessage: string := "error: permission denied. This operation requires a System Administrator account."
  const UnexpectedMessage: string := "error: unexpected API error."

  function NotFoundMessage(serverUrl: string): string {
    "error: API endpoint not found on " + serverUrl + ". Check the server URL."
  }

  function ServerErrorMessage(statusCode: int): string {
    "error: the Mattermost server returned an unexpected error (HTTP " + IntToDecimal(statusCode)
    + "). Check server logs for details."
  }

  function ConnectMessage(serverUrl: string): string {
    "error: unable to connect to " + serverUrl + ". Check the URL and network connectivity."
  }

  /** No status this table recognises: no response, or a status that is not
      401, 403, 404 or 500 and above. */
  predicate Unrecognised(resp: Option<Response>) {
    resp.None? || (resp.value.statusCode !in {401, 403, 404} && resp.value.statusCode < 500)
  }

  /** The decision table from a failed call to a CLI error. Credentials
      problems are configuration errors, everything else an API error, and
      the original error is always kept. */
  function ClassifyAPIError(serverUrl: string, resp: Option<Response>, err: Option<Cause>): (e: CLIError)
    ensures e.code == ExitConfigError || e.code == ExitAPIError
    ensures e.Unwrap() == err
    ensures e.code == ExitConfigError <==> resp.Some? && resp.value.statusCode in {401, 403}
    ensures resp == Some(Response(401)) ==> e.message == AuthFailedMessage
    ensures resp == Some(Response(403)) ==> e.message == PermissionDeniedMessage
    ensures resp == Some(Response(404)) ==> e.message == NotFoundMessage(serverUrl)
    ensures resp.Some? && resp.value.statusCode >= 500 ==> e.message == ServerErrorMessage(resp.value.statusCode)
    ensures Unrecognised(resp) && serverUrl != "" ==> e.message == ConnectMessage(serverUrl)
    ensures Unrecognised(resp) && serverUrl == "" ==> e.message == UnexpectedMessage
  {
    if resp.Some? && resp.value.statusCode == 401 then ConfigError(AuthFailedMessage, err)
    else if resp.Some? && resp.value.statusCode == 403 then ConfigError(PermissionDeniedMessage, err)
    else if resp.Some? && resp.value.statusCode == 404 then ApiError(NotFoundMessage(serverUrl), err)
    else if resp.Some? && resp.value.statusCode >= 500 then ApiError(ServerErrorMessage(resp.value.statusCode), err)
    else if serverUrl != "" then ApiError(ConnectMessage(serverUrl), err)
    else ApiError(UnexpectedMessage, err)
  }

  /** The messages that name the server or the status really contain them,
      so a user can read the URL or the code back. */
  lemma MessagesEmbedDetails(serverUrl: string, statusCode: int)
    ensures Contains(NotFoundMessage(serverUrl), serverUrl)
    ensures Contains(ConnectMessage(serverUrl), serverUrl)
    ensures Contains(ServerErrorMessage(statusCode), IntToDecimal(statusCode))
  {
    InfixContained("error: API endpoint not found on ", serverUrl, ". Check the server URL.");
    InfixContained("error: unable to connect to ", serverUrl, ". Check the URL and network connectivity.");
    InfixContained("error: the Mattermost server returned an unexpected error (HTTP ", IntToDecimal(statusCode),
                   "). Check server logs for details.");
  }

  /** The printed error is the message followed by the cause, when there is
      one. */
  lemma ClassifiedErrorText(serverUrl: string, resp: Option<Response>, cause: Cause)
    ensures var e := ClassifyAPIError(serverUrl, resp, Some(cause));
      e.Error() == e.message + ": " + cause.text
  {
    var e := ClassifyAPIError(serverUrl, resp, Some(cause));
    var s := e.Error();
    assert s == s[..|e.message|] + s[|e.message|..];
  }

  // ---------------------------------------------------------------------------
  // Installed plugins

  /** A plugin component, when the manifest declares one. */
  datatype Component = Component(path: string)

  /** One plugin as the server lists it. */
  datatype PluginInfo = PluginInfo(
    id: string,
    name: string,
    version: string,
    homepageUrl: string,
    server: Option<Component>,
    webapp: Option<Component>)

  /** The server's listing, split by activation. */
  datatype PluginsResponse = PluginsResponse(active: seq<PluginInfo>, inactive: seq<PluginInfo>)

  /** A failed call: the response when there was one, and the error. */
  datatype FetchError = FetchError(resp: Option<Response>, err: Cause)

  /** A failed fetch of the plugin list or of a catalogue page. These calls
      pass no server URL, so a failure without a recognised status prints
      the generic message, never the "unable to connect" one. */
  function FailedFetch(e: FetchError): (r: CLIError)
    ensures r.Unwrap() == Some(e.err)
    ensures r.code == ExitConfigError <==> e.resp.Some? && e.resp.value.statusCode in {401, 403}
    ensures Unrecognised(e.resp) ==> r.message == UnexpectedMessage
  {
    ClassifyAPIError("", e.resp, Some(e.err))
  }

  /** An installed plugin from a listed one, with the given status. */
  function Installed(p: PluginInfo, status: string): (q: InstalledPlugin)
    ensures q.id == p.id && q.name == p.name && q.version == p.version && q.homepageUrl == p.homepageUrl
    ensures q.status == status
    ensures q.hasServer <==> p.server.Some?
    ensures q.hasWebapp <==> p.webapp.Some?
  {
    InstalledPlugin(p.id, p.name, p.version, p.homepageUrl, status, p.server.Some?, p.webapp.Some?)
  }

  /** The active plugins as "enabled", then the inactive as "disabled". */
  predicate InstalledFrom(listing: PluginsResponse, plugins: seq<InstalledPlugin>) {
    && |plugins| == |listing.active| + |listing.inactive|
    && (forall i :: 0 <= i < |listing.active| ==> plugins[i] == Installed(listing.active[i], "enabled"))
    && (forall i :: 0 <= i < |listing.inactive| ==>
          plugins[|listing.active| + i] == Installed(listing.inactive[i], "disabled"))
  }

  /** The two appending loops; a failed call becomes a classified error. */
  method GetPlugins(fetched: Result<PluginsResponse, FetchError>) returns (res: Result<seq<InstalledPlugin>, CLIError>)
    ensures fetched.Failure? ==> res == Failure(FailedFetch(fetched.error))
    ensures fetched.Success? ==> res.Success? && InstalledFrom(fetched.value, res.value)
  {
    if fetched.Failure? {
      return Failure(FailedFetch(fetched.error));
    }
    var listing := fetched.value;
    var plugins: seq<InstalledPlugin> := [];
    var i := 0;
    while i < |listing.active|
      invariant 0 <= i <= |listing.active|
      invariant |plugins| == i
      invariant forall k :: 0 <= k < i ==> plugins[k] == Installed(listing.active[k], "enabled")
    {
      plugins := plugins + [Installed(listing.active[i], "enabled")];
      i := i + 1;
    }
    var j := 0;
    while j < |listing.inactive|
      invariant 0 <= j <= |listing.inactive|
      invariant |plugins| == |listing.active| + j
      invariant forall k :: 0 <= k < |listing.active| ==> plugins[k] == Installed(listing.active[k], "enabled")
      invariant forall k :: 0 <= k < j ==> plugins[|listing.active| + k] == Installed(listing.inactive[k], "disabled")
    {
      plugins := plugins + [Installed(listing.inactive[j], "disabled")];
      j := j + 1;
    }
    return Success(plugins);
  }

  /** A plugin is reported enabled exactly when it came from the active list,
      and disabled otherwise. */
  lemma StatusFollowsActivation(listing: PluginsResponse, plugins: seq<InstalledPlugin>, i: int)
    requires InstalledFrom(listing, plugins) && 0 <= i < |plugins|
    ensures plugins[i].status == "enabled" <==> i < |listing.active|
    ensures plugins[i].status == "enabled" || plugins[i].status == "disabled"
  {
    if i >= |listing.active| {
      var k := i - |listing.active|;
      assert plugins[|listing.active| + k] == Installed(listing.inactive[k], "disabled");
    } else {
      assert plugins[i] == Installed(listing.active[i], "enabled");
    }
  }

  // ---------------------------------------------------------------------------
  // The marketplace catalogue

  /** The manifest fields the catalogue keeps. */
  datatype Manifest = Manifest(id: string, version: string)

  /** One catalogue entry; its manifest may be missing. */
  datatype MarketplaceEntry = MarketplaceEntry(manifest: Option<Manifest>, homepageUrl: string)

  /** The page size asked for; a shorter page is the last. */
  const PerPage: nat := 200

  /** The catalogue record of an entry that has a manifest. */
  function PluginOf(e: MarketplaceEntry): MarketplacePlugin
    requires e.manifest.Some?
  {
    MarketplacePlugin(e.manifest.value.version, e.homepageUrl)
  }

  /** The entry has a manifest with this ID. */
  predicate HasId(e: MarketplaceEntry, id: string) {
    e.manifest.Some? && e.manifest.value.id == id
  }

  /** Adds a run of entries in order: entries without a manifest are
      skipped, and a later entry replaces an earlier one with the same ID. */
  function AddEntries(acc: map<string, MarketplacePlugin>, entries: seq<MarketplaceEntry>): (m: map<string, MarketplacePlugin>)
    ensures acc.Keys <= m.Keys
    ensures forall id :: id in acc && (forall e :: e in entries ==> !HasId(e, id)) ==> m[id] == acc[id]
    decreases |entries|
  {
    if entries == [] then acc
    else
      var init := entries[..|entries| - 1];
      assert forall x :: x in init ==> x in entries;
      var m := AddEntries(acc, init);
      var e := entries[|entries| - 1];
      assert e in entries;
      if e.manifest.Some? then m[e.manifest.value.id := PluginOf(e)] else m
  }

  /** The per-page loop. */
  method AddPage(acc: map<string, MarketplacePlugin>, entries: seq<MarketplaceEntry>)
    returns (m: map<string, MarketplacePlugin>)
    ensures m == AddEntries(acc, entries)
  {
    m := acc;
    var i := 0;
    while i < |entries|
      invariant 0 <= i <= |entries|
      invariant m == AddEntries(acc, entries[..i])
    {
      assert entries[..i + 1][..i] == entries[..i];
      var e := entries[i];
      if e.manifest.Some? {
        m := m[e.manifest.value.id := MarketplacePlugin(e.manifest.value.version, e.homepageUrl)];
      }
      i := i + 1;
    }
    assert entries[..i] == entries;
  }

  /** Which IDs end up in the map: the earlier ones and those of the entries
      that have a manifest. */
  lemma {:induction false} AddEntriesKeys(acc: map<string, MarketplacePlugin>, entries: seq<MarketplaceEntry>, id: string)
    ensures id in AddEntries(acc, entries) <==>
      id in acc || exists i :: 0 <= i < |entries| && HasId(entries[i], id)
    decreases |entries|
  {
    if entries != [] {
      var init := entries[..|entries| - 1];
      AddEntriesKeys(acc, init, id);
      if exists i :: 0 <= i < |init| && HasId(init[i], id) {
        var i :| 0 <= i < |init| && HasId(init[i], id);
        assert entries[i] == init[i];
      }
      if exists i :: 0 <= i < |entries| && HasId(entries[i], id) {
        var i :| 0 <= i < |entries| && HasId(entries[i], id);
        if i < |init| {
          assert init[i] == entries[i];
        }
      }
    }
  }

  /** The value kept for an ID is that of its last entry. */
  lemma {:induction false} LastEntryWins(acc: map<string, MarketplacePlugin>, entries: seq<MarketplaceEntry>, i: int)
    requires 0 <= i < |entries| && entries[i].manifest.Some?
    requires forall j :: i < j < |entries| ==> !HasId(entries[j], entries[i].manifest.value.id)
    ensures var id := entries[i].manifest.value.id;
      id in AddEntries(acc, entries) && AddEntries(acc, entries)[id] == PluginOf(entries[i])
    decreases |entries|
  {
    if i < |entries| - 1 {
      LastEntryWins(acc, entries[..|entries| - 1], i);
    }
  }

  /** Folding two runs one after the other is folding their concatenation. */
  lemma {:induction false} AddEntriesAppend(acc: map<string, MarketplacePlugin>, a: seq<MarketplaceEntry>, b: seq<MarketplaceEntry>)
    ensures AddEntries(AddEntries(acc, a), b) == AddEntries(acc, a + b)
    decreases |b|
  {
    if b == [] {
      assert a + b == a;
    } else {
      assert (a + b)[..|a + b| - 1] == a + b[..|b| - 1];
      AddEntriesAppend(acc, a, b[..|b| - 1]);
    }
  }

  /** The answer for a page number; past the supplied pages the server
      answers with an empty page. */
  function PageAt(pages: seq<Result<seq<MarketplaceEntry>, FetchError>>, page: nat): Result<seq<MarketplaceEntry>, FetchError> {
    if page < |pages| then pages[page] else Success([])
  }

  /** The paging loop as a recursion: fetch, add, stop on a short page. */
  function CatalogueFrom(pages: seq<Result<seq<MarketplaceEntry>, FetchError>>, page: nat, acc: map<string, MarketplacePlugin>)
    : (r: Result<map<string, MarketplacePlugin>, CLIError>)
    requires page <= |pages|
    ensures r.Success? ==> acc.Keys <= r.value.Keys
    ensures r.Failure? ==> exists k :: page <= k < |pages| && pages[k].Failure? && r.error == FailedFetch(pages[k].error)
    decreases |pages| - page
  {
    var fetched := PageAt(pages, page);
    if fetched.Failure? then Failure(FailedFetch(fetched.error))
    else if |fetched.value| < PerPage then Success(AddEntries(acc, fetched.value))
    else CatalogueFrom(pages, page + 1, AddEntries(acc, fetched.value))
  }

  /** The entries of the pages the loop reads, from `page` up to and
      including the first short page. */
  function EntriesRead(pages: seq<Result<seq<MarketplaceEntry>, FetchError>>, page: nat): seq<MarketplaceEntry>
    requires page <= |pages|
    decreases |pages| - page
  {
    var fetched := PageAt(pages, page);
    if fetched.Failure? then []
    else if |fetched.value| < PerPage then fetched.value
    else fetched.value + EntriesRead(pages, page + 1)
  }

  /** A successful paging is one fold over all the entries read, in page
      order; so a later page overwrites an earlier one. */
  lemma {:induction false} CatalogueIsFold(pages: seq<Result<seq<MarketplaceEntry>, FetchError>>, page: nat, acc: map<string, MarketplacePlugin>)
    requires page <= |pages|
    requires CatalogueFrom(pages, page, acc).Success?
    ensures CatalogueFrom(pages, page, acc).value == AddEntries(acc, EntriesRead(pages, page))
    decreases |pages| - page
  {
    var fetched := PageAt(pages, page);
    if |fetched.value| >= PerPage {
      CatalogueIsFold(pages, page + 1, AddEntries(acc, fetched.value));
      AddEntriesAppend(acc, fetched.value, EntriesRead(pages, page + 1));
    }
  }

  /** Pages after the first short one are never fetched: what follows it,
      even a failure, does not change the outcome. */
  lemma StopsAtShortPage(pages: seq<Result<seq<MarketplaceEntry>, FetchError>>, page: nat, acc: map<string, MarketplacePlugin>, later: seq<Result<seq<MarketplaceEntry>, FetchError>>)
    requires page < |pages| && pages[page].Success? && |pages[page].value| < PerPage
    ensures CatalogueFrom(pages, page, acc) == CatalogueFrom(pages[..page + 1] + later, page, acc)
      == Success(AddEntries(acc, pages[page].value))
  {
    assert (pages[..page + 1] + later)[page] == pages[page];
  }

  /** The catalogue fetch: pages of `PerPage` entries until a short one; a
      failed page is a classified error and no partial catalogue. */
  method GetMarketplacePlugins(pages: seq<Result<seq<MarketplaceEntry>, FetchError>>)
    returns (res: Result<map<string, MarketplacePlugin>, CLIError>)
    ensures res == CatalogueFrom(pages, 0, map[])
  {
    var result: map<string, MarketplacePlugin> := map[];
    var page := 0;
    while true
      invariant 0 <= page <= |pages|
      invariant CatalogueFrom(pages, 0, map[]) == CatalogueFrom(pages, page, result)
      decreases |pages| - page
    {
      var fetched := PageAt(pages, page);
      if fetched.Failure? {
        return Failure(FailedFetch(fetched.error));
      }
      result := AddPage(result, fetched.value);
      if |fetched.value| < PerPage {
        return Success(result);
      }
      page := page + 1;
    }
  }
}
