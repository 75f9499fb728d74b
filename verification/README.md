# Meraki wireless client graph — Dafny model

The application charts the wireless client count history of the networks of a
Cisco Meraki organization. Its core has three parts:

- `MerakiAPIWrapper` holds the selected scope: the API key, the organization
  and the network. It checks the required-parameter setup and caches the
  organization and network lists it gets from the vendor SDK. The repository
  has two copies of the wrapper. The root copy filters `list_networks` by tags
  and product types. The packaged copy (`meraki_tools/`) joins each network's
  tags into one string.
- `ProjectLogic.collect_network_data_history` builds the dictionary from
  network id to name and client-count history.
- `ProjectUI` checks the time window the user selected and charts the
  histories. The first non-empty history sets the x axis. A line is plotted
  only for a network whose history is non-empty and has exactly that length.
  A "Total Clients" line sums the plotted lines, and the chart's data is
  exported as CSV rows.

Modules:

- `Common`: `Option`, `Result`, the abstract outcome of a vendor call, and
  Python truthiness of optional strings.
- `NetworkListing`: raw vendor records, the any-match filter with its
  specification `Filtered`, the record projections, and the tag join with its
  inverse.
- `MerakiApi`: the `MerakiApiWrapper` class. The pure step function `Fetch`
  specifies `_fetch_data`. The cache methods are proved against it.
- `HistoryCollection`: the insertion-ordered dictionary `GraphData`, the
  `ProjectLogic` class and its collection loop, proved against `Collected`.
- `ProjectUi`: window validation, the chart (`DisplayGraph`, proved against
  `FirstHistory`, `PlottedSeries` and `ColumnTotal`) and the CSV rows.

Vendor calls, the `MK_CSM_KEY` environment variable and the current time are
parameters:

- each vendor call is an `Outcome`: a list of records, an SDK `APIError`
  (status and message), or any other exception;
- the environment value is an `Option<string>`;
- `now` is an integer number of microseconds.

`GetOrganizations` and `GetNetworks` also return whether the vendor call
would happen.

Both copies have the same `MerakiAPIWrapper` except for `list_networks`, so
one class models both: `ListNetworks` is the root copy and
`ListNetworksJoined` the packaged one. The class invariant `Valid()` says the
dashboard client exists exactly when the API key is non-empty. `set_api_key`
is the only writer of the key and keeps the client in step with it.
`get_dashboard`'s lazy construction needs a key without a client, which
`Valid()` excludes, so the model reads the existing client.

## Model

| member | source | states |
|---|---|---|
| MerakiApi.MerakiApiWrapper.constructor | meraki_api_utils.py:26-44 | empty scope and caches, no required parameters, caching as given, key chosen as by `set_api_key`, invariant established |
| MerakiApi.SetAttr | meraki_api_utils.py:46-65 | an empty or absent id changes nothing; otherwise the id is stored, the name only when one is given; the id ends up set iff it was given or already set |
| MerakiApi.MerakiApiWrapper.SetOrganizationId | meraki_api_utils.py:149-157 | the (id, name) pair is updated by the `_set_attr` rule |
| MerakiApi.MerakiApiWrapper.SetNetworkId | meraki_api_utils.py:186-194 | the (id, name) pair is updated by the `_set_attr` rule |
| MerakiApi.ChooseApiKey | meraki_api_utils.py:92-110 | a non-empty argument wins, else a non-empty environment value, else none; the chosen key is never the empty string and is set iff one of the two is non-empty |
| MerakiApi.MerakiApiWrapper.SetApiKey | meraki_api_utils.py:92-116 | stores the chosen key; the client exists iff argument or environment value is non-empty; the invariant holds |
| MerakiApi.Fetch | meraki_api_utils.py:236-298 | a cache hit returns the cached list without calling the vendor; with caching off nothing is stored; success returns and (caching on) stores the data; an API error or other exception returns its error record and (caching on) stores an empty list |
| MerakiApi.StoreSlot | meraki_api_utils.py:268-274 | writing under one organization id sets that slot (creating the dictionary) and leaves every other slot as it was |
| MerakiApi.FailedFetchIsReplayed | meraki_api_utils.py:256-298 | after a failed fetch with caching on, the next cached call for that key returns an empty list with no vendor call, whatever the vendor would now answer |
| MerakiApi.SuccessfulFetchIsReplayed | meraki_api_utils.py:256-275 | after a successful fetch with caching on, the next cached call for that key returns the same data with no vendor call |
| MerakiApi.MerakiApiWrapper.OrganizationsStep | meraki_api_utils.py:302-319 | without a client: the "client is not initialized" error, no vendor call, no store |
| MerakiApi.MerakiApiWrapper.GetOrganizations | meraki_api_utils.py:302-319 | result, vendor call and new organizations cache are those of the `_fetch_data` step on the unkeyed cache |
| MerakiApi.MerakiApiWrapper.NetworksStep | meraki_api_utils.py:321-344 | without a client: the "not initialized" error; without an organization id from the argument or the selection: "select an organization first"; in both cases no vendor call and no store |
| MerakiApi.MerakiApiWrapper.GetNetworks | meraki_api_utils.py:321-344 | result, vendor call and new networks cache are those of the `_fetch_data` step on the slot of the resolved organization id; no call means no cache change |
| MerakiApi.MerakiApiWrapper.StoreNetworks | meraki_api_utils.py:271-274 | the networks cache gains the data under the key, created empty first when absent |
| NetworkListing.ToOrganizationRecord | meraki_api_utils.py:365-374 | "api enabled" is true iff the raw record holds an `api` record whose `enabled` is true; id, name, url copied; the licensing model comes from the `licensing` record |
| MerakiApi.MerakiApiWrapper.ListOrganizations | meraki_api_utils.py:346-376 | errors pass through unchanged; otherwise exactly one projected record per organization, in order |
| NetworkListing.Filtered | meraki_api_utils.py:418-439 | the kept networks are input networks that match both filters, never more than the input |
| NetworkListing.FilteredMembership | meraki_api_utils.py:418-439 | a network is kept iff it is in the input and some requested tag and some requested product type (each filter off when absent or empty) is among its own |
| NetworkListing.FilteredAppend | meraki_api_utils.py:418-439 | filtering keeps input order: filtering a concatenation concatenates the filtered parts |
| NetworkListing.FilteredWithoutFilters | meraki_api_utils.py:421-436 | with both filters absent every network is kept |
| NetworkListing.FilterNetworks | meraki_api_utils.py:418-439 | the loop's output is exactly `Filtered` of its input |
| NetworkListing.ToNetworkRecord | meraki_api_utils.py:445-455 | id, name, type and time zone copied; tag and product-type lists copied when present and empty when absent |
| MerakiApi.MerakiApiWrapper.ListNetworks | meraki_api_utils.py:378-457 | no resolvable organization id gives the configuration error with the cache untouched; otherwise errors pass through and success yields the records of the filtered networks, in order, with absent tag and product-type lists as empty lists |
| NetworkListing.JoinTags | meraki_tools/meraki_api_utils.py:405 | the joined string starts with the first tag, followed by ", " when there is a second; for plain tags it is empty iff there are no tags |
| NetworkListing.ToNetworkSummary | meraki_tools/meraki_api_utils.py:399-408 | id, name, type and time zone copied; absent tags give ""; for plain tags the joined string splits back into the tag list |
| MerakiApi.MerakiApiWrapper.ListNetworksJoined | meraki_tools/meraki_api_utils.py:378-410 | errors pass through; otherwise exactly one summary per raw network, in order, with tags joined by ", " |
| NetworkListing.TagsRoundTrip | meraki_tools/meraki_api_utils.py:405 | for non-empty tags without commas, splitting the joined string at each ", " gives back the tag list |
| NetworkListing.SplitRoundTrip | meraki_tools/meraki_api_utils.py:405 | joining the ", "-separated pieces of any string gives the string back, so a joined tag string is determined by the pieces it splits into |
| MerakiApi.RequiredOrderValid | meraki_api_utils.py:459-478 | a map requiring neither organization nor network id is accepted; key plus organization required is accepted; network without organization required is rejected |
| MerakiApi.RequiredOrderIsChain | meraki_api_utils.py:459-478 | the ordering check accepts iff network required implies organization required and organization required implies API key required |
| MerakiApi.MerakiApiWrapper.SetupApplicationParameters | meraki_api_utils.py:480-543 | caching updated when given; a bad ordering returns false and stores nothing; otherwise the flags are stored and each required step (key, organization, network) runs in order; returns true iff the ordering is valid and every required step has a non-empty value, and then every required parameter is set |
| MerakiApi.MerakiApiWrapper.CheckCurrentParametersStatus | meraki_api_utils.py:545-568 | no flags: false with "No required parameters defined"; a bad ordering: false with the configuration message; otherwise true iff every required parameter is set, and the missing list names exactly the required unset parameters, in the order key, organization, network |
| MerakiApi.MaskApiKey | meraki_api_utils.py:580-583 | "N/A" without a key; otherwise same length, the last four (or fewer) characters kept and stars before them |
| MerakiApi.MerakiApiWrapper.CurrentAppParams | meraki_api_utils.py:570-593 | an entry for each required parameter and none other, the name entries beside their ids; the key is masked, ids and names read "N/A" when absent, and every entry carries its display label |
| HistoryCollection.Put | project_logic.py:49-64 | dictionary assignment: the key maps to the new value, other keys keep theirs, a new key is appended, an existing key keeps its position, unique keys stay unique |
| HistoryCollection.InfoFor | project_logic.py:39-64 | the stored name is the network's name or "Unnamed Network (id)"; the history is the fetched one, or empty when the call raised |
| HistoryCollection.CollectedKeys | project_logic.py:39-64 | the keys of the collected dictionary are exactly the input network ids, each once |
| HistoryCollection.CollectedEntry | project_logic.py:39-64 | each network (the last of any repeated id) maps to its name and its own fetched history, or an empty history when its call failed, independent of other networks' failures |
| HistoryCollection.ProjectLogic.CollectNetworkDataHistory | project_logic.py:24-64 | without a client the result is empty; otherwise it is `Collected`, with the key and entry properties above |
| ProjectUi.ValidateTimeWindow | project_ui.py:102-126 | rejected for end not after start iff end <= start; for end in the future iff that; for start older than 31 days iff that; accepted iff start < end <= now and start within 31 days of now, and then the span is at most 31 days |
| ProjectUi.SpanCheckNeverFires | project_ui.py:121-126 | the fourth (span) check never rejects a window the first three accept |
| ProjectUi.BoundariesAccepted | project_ui.py:102-126 | the bounds are inclusive: a window ending exactly now with its start at most 31 days back is accepted, and so is a window starting exactly 31 days back and ending no later than now; a span of exactly 31 days is accepted only when it ends now |
| ProjectUi.CollectAndDisplay | project_ui.py:102-137 | collection happens iff every window check passes, and then yields `Collected` (empty without a client); a chart exists iff collection happened and some history is non-empty |
| ProjectUi.FirstHistory | project_ui.py:159-163 | empty iff every network's history is empty; otherwise the history of a network all of whose predecessors have empty histories |
| ProjectUi.FindFirstHistory | project_ui.py:159-163 | returns `FirstHistory` and, when it is non-empty, the position of that network |
| ProjectUi.PlottedSeries | project_ui.py:191-217 | every plotted line has the x axis' length |
| ProjectUi.AddCounts | project_ui.py:219-220 | each total grows by the matching count |
| ProjectUi.PlotNetworks | project_ui.py:182-220 | the lines are `PlottedSeries` and the totals `ColumnTotal` at every index |
| ProjectUi.ColumnTotal | project_ui.py:219-220 | the total at an index beyond the x axis is 0, and it is 0 when no network is plotted |
| ProjectUi.TotalIsSumOfSeries | project_ui.py:182-220 | the "Total Clients" value at each index is the sum of the plotted lines at that index |
| ProjectUi.TotalDominatesSeries | project_ui.py:182-220 | with non-negative counts no plotted line exceeds the total at any index |
| ProjectUi.SomeSeriesPlotted | project_ui.py:165-222 | a network with a non-empty history of the x axis' length is plotted, so the "no valid data" exit is never taken |
| ProjectUi.DisplayGraph | project_ui.py:139-226 | no chart iff every history is empty; otherwise the x axis comes from the first non-empty history, the lines are those of matching length, at least one is plotted, and the total is their pointwise sum |
| ProjectUi.CsvCell | project_ui.py:268-276 | blank iff the history has the index and its count is `None`; otherwise the stored count, or 0 past the end of the history or when the count is absent |
| ProjectUi.CsvHeader | project_ui.py:261-264 | "Timestamp", then the display name of every network in dictionary order |
| ProjectUi.CsvRow | project_ui.py:269-277 | the timestamp, then the `CsvCell` of every network at that index |
| ProjectUi.DownloadCsv | project_ui.py:261-278 | the `CsvHeader` row plus one row per timestamp, each as wide as the networks plus one, each starting with its timestamp and holding `CsvCell` for every network |
| ProjectUi.DownloadChartCsv | project_ui.py:166-168 | the export uses the chart's x axis: no export iff every history is empty; otherwise one row per sample of the first non-empty history plus the header, the timestamps those samples' start times |

## Left out

- User interface: PyWebIO scopes, toasts, input forms and buttons, the
  pyecharts styling and markers, logging, and the menu (`app_main_menu`,
  `handle_main_menu_action`).
- Date handling: parsing the date and time inputs (including the invalid
  format error), ISO formatting of `t0`/`t1` for the vendor call, and
  formatting of the x-axis timestamps. Instants are integers and timestamps
  are the raw `startTs` strings.
- Byte-level CSV: quoting, UTF-8 encoding and the download itself. `DownloadCsv`
  builds the cell values only.
- `get_headers`, the `get_*`/`is_*_set` accessors (they appear as fields and
  predicates) and the `source` logging argument of `set_api_key`.
- The vendor SDK: its calls are the `Outcome` parameters. Exceptions raised by
  `DashboardAPI` construction are not modelled.
- The lazy client construction of `get_dashboard`, which the invariant makes
  unreachable.
- The `UnexpectedReturnType` branch of `list_organizations` and the "unexpected
  response type" branches of both `list_networks`. With typed results they
  cannot happen.
- Raw records are assumed to carry an `id`. A missing `id` key, and a key that
  is present with the value `None` (e.g. `tags: None`, which would raise),
  are not distinguished from an absent key.
- `NetworkName`: `NetworkRef.name == None` stands both for an absent `name`
  key and for `"name": None`. The packaged `list_networks` always emits a
  `name` key, `None` for an unnamed network
  (meraki_tools/meraki_api_utils.py:402). `.get('name', ...)` then returns
  that `None`, so in the application's flow the source stores `None` as the
  name and the "Unnamed Network (id)" default is never used. The model
  applies the default in both cases.
- `handle_main_menu_action` passes `filter_product_type` to `list_networks`,
  but the packaged wrapper it imports has no such parameter. That call raises
  and is caught there. The menu is out of scope; the model keeps both
  `list_networks` variants.
- `CurrentAppParams` returns a map, so it does not capture the insertion
  order in which `get_current_app_params` builds its entries (key,
  organization id and name, network id and name), which the parameter
  popup displays in that order.
