/** `MerakiAPIWrapper`: the selected scope (API key, organization, network),
    the required-parameter setup, and the organization and network caches
    that sit in front of the vendor SDK.  Both copies of the wrapper are
    modelled by one class: they differ only in `list_networks`, modelled
    here as `ListNetworks` (the root copy, with filters) and
    `ListNetworksJoined` (the packaged copy, tags joined into a string). */
module MerakiApi {
  import opened Common
  import opened NetworkListing

  /** The wrapper's error records (`{"error": <kind>, "details": ...}`). */
  datatype ApiError =
    | DashboardApiError(details: string)
    | MerakiApiError(details: string, statusCode: int)
    | UnexpectedError(details: string)
    | NoOrganizationSelected(details: string)
    | ConfigurationError(details: string)

  const CLIENT_NOT_INITIALIZED := "Meraki Dashboard API client is not initialized."
  const API_NOT_INITIALIZED := "Meraki Dashboard API not initialized."
  const SELECT_ORGANIZATION_FIRST := "Please select an organization first."
  const ORGANIZATION_UNDETERMINED := "Organization ID is not provided and cannot be determined."

  /** Keys of the required-parameter map and of the parameter-value map. */
  const KEY_API_KEY := "api_key"
  const KEY_ORGANIZATION_ID := "organization_id"
  const KEY_NETWORK_ID := "network_id"
  const KEY_ORG_NAME := "org_name"
  const KEY_NET_NAME := "net_name"
  const KEY_ORGANIZATION_NAME := "organization_name"
  const KEY_NETWORK_NAME := "network_name"

  /** Entries of the "missing parameters" list and its two special messages. */
  const MISSING_API_KEY := "API_KEY"
  const MISSING_ORGANIZATION_ID := "ORGANIZATION_ID"
  const MISSING_NETWORK_ID := "NETWORK_ID"
  const NO_REQUIRED_PARAMETERS := "No required parameters defined"
  const INVALID_CONFIGURATION := "Invalid required_app_setup_parm configuration stored in instance"

  const NOT_AVAILABLE := "N/A"

  /** The order in which missing parameters are reported. */
  const MISSING_ORDER := [MISSING_API_KEY, MISSING_ORGANIZATION_ID, MISSING_NETWORK_ID]

  /** Position of a label in `MISSING_ORDER`. */
  function MissingRank(entry: string): nat {
    if entry == MISSING_API_KEY then 0
    else if entry == MISSING_ORGANIZATION_ID then 1
    else 2
  }

  /** `required.get(key, False)` */
  predicate Flag(required: map<string, bool>, key: string) {
    key in required && required[key]
  }

  /** `params.get(key)` */
  function Param(params: map<string, string>, key: string): Option<string> {
    if key in params then Some(params[key]) else None
  }

  /** `_check_required_parameter_order`: the organization id may be required
      only together with the API key, the network id only together with both. */
  predicate RequiredOrderValid(required: map<string, bool>): (ok: bool)
    ensures !Flag(required, KEY_ORGANIZATION_ID) && !Flag(required, KEY_NETWORK_ID) ==> ok
    ensures Flag(required, KEY_API_KEY) && Flag(required, KEY_ORGANIZATION_ID) ==> ok
    ensures Flag(required, KEY_NETWORK_ID) && !Flag(required, KEY_ORGANIZATION_ID) ==> !ok
  {
    var apiKeyReq := Flag(required, KEY_API_KEY);
    var orgIdReq := Flag(required, KEY_ORGANIZATION_ID);
    var netIdReq := Flag(required, KEY_NETWORK_ID);
    if orgIdReq && !apiKeyReq then false
    else if netIdReq && (!apiKeyReq || !orgIdReq) then false
    else true
  }

  /** The two rejecting checks amount to the chain network => organization =>
      API key; absent keys count as not required. */
  lemma RequiredOrderIsChain(required: map<string, bool>)
    ensures RequiredOrderValid(required) <==>
      (Flag(required, KEY_NETWORK_ID) ==> Flag(required, KEY_ORGANIZATION_ID)) &&
      (Flag(required, KEY_ORGANIZATION_ID) ==> Flag(required, KEY_API_KEY))
  {
  }

  /** The key `set_api_key` stores: a non-empty argument, else a non-empty
      `MK_CSM_KEY` environment value, else `None`. */
  function ChooseApiKey(key: Option<string>, envApiKey: Option<string>): (r: Option<string>)
    ensures Truthy(key) ==> r == key
    ensures !Truthy(key) && Truthy(envApiKey) ==> r == envApiKey
    ensures r.Some? ==> r.value != ""
    ensures Truthy(r) <==> Truthy(key) || Truthy(envApiKey)
  {
    if Truthy(key) then key
    else if Truthy(envApiKey) then envApiKey
    else None
  }

  /** `_set_attr` on an (id, name) pair: an empty or absent id changes
      nothing; otherwise the id is stored, and the name only when one is given. */
  function SetAttr(current: (Option<string>, Option<string>), id: Option<string>, name: Option<string>): (r: (Option<string>, Option<string>))
    ensures !Truthy(id) ==> r == current
    ensures Truthy(id) ==> r.0 == id
    ensures Truthy(id) && Truthy(name) ==> r.1 == name
    ensures !Truthy(name) ==> r.1 == current.1
    ensures Truthy(r.0) <==> Truthy(id) || Truthy(current.0)
  {
    if Truthy(id) then (id, if Truthy(name) then name else current.1)
    else current
  }

  /** `"*" * n` */
  function Stars(n: nat): (r: string)
    ensures |r| == n && forall i :: 0 <= i < n ==> r[i] == '*'
  {
    seq(n, _ => '*')
  }

  /** The masked API key of `get_current_app_params`. */
  function MaskApiKey(key: Option<string>): (r: string)
    ensures !Truthy(key) ==> r == NOT_AVAILABLE
    ensures Truthy(key) ==>
      var k := key.value;
      var shown := if |k| < 4 then |k| else 4;
      |r| == |k| && r[|k| - shown..] == k[|k| - shown..] &&
      forall i :: 0 <= i < |k| - shown ==> r[i] == '*'
  {
    var k := key.GetOr("");
    if k == "" then NOT_AVAILABLE
    else
      var shown := if |k| < 4 then |k| else 4;
      Stars(|k| - shown) + k[|k| - shown..]
  }

  /** `value or "N/A"` */
  function OrNotAvailable(value: Option<string>): string {
    if Truthy(value) then value.value else NOT_AVAILABLE
  }

  /** One entry of `get_current_app_params`. */
  datatype ParamEntry = ParamEntry(value: string, displayLabel: string)

  // ---------------------------------------------------------------------
  // `_fetch_data`, with the vendor call replaced by its outcome

  /** What one `_fetch_data` call does to the cache slot it works on: the
      result it returns, the value it writes into the slot (`None`: no write),
      and whether it calls the vendor at all. */
  datatype FetchStep<T> = FetchStep(result: Result<seq<T>, ApiError>, store: Option<seq<T>>, called: bool)

  /** `_fetch_data` on one cache slot (`slot` is the cached list, `None` when
      nothing is cached); `dashboard` is whether `get_dashboard` yields a client. */
  function Fetch<T>(slot: Option<seq<T>>, useCache: bool, caching: bool, dashboard: bool, outcome: Outcome<T>): (step: FetchStep<T>)
    ensures useCache && caching && slot.Some? ==>
      step.result == Success(slot.value) && step.store == None && !step.called
    ensures step.called <==> !(useCache && caching && slot.Some?) && dashboard
    ensures !step.called ==> step.store == None
    ensures !caching ==> step.store == None
    ensures step.called && outcome.Ok? ==>
      step.result == Success(outcome.data) && (caching ==> step.store == Some(outcome.data))
    ensures step.called && outcome.ApiErr? ==>
      step.result == Failure(MerakiApiError(outcome.message, outcome.status)) && (caching ==> step.store == Some([]))
    ensures step.called && outcome.Other? ==>
      step.result == Failure(UnexpectedError(outcome.message)) && (caching ==> step.store == Some([]))
  {
    if useCache && caching && slot.Some? then FetchStep(Success(slot.value), None, false)
    else if !dashboard then FetchStep(Failure(DashboardApiError(API_NOT_INITIALIZED)), None, false)
    else
      match outcome
      case Ok(data) => FetchStep(Success(data), if caching then Some(data) else None, true)
      case ApiErr(status, message) => FetchStep(Failure(MerakiApiError(message, status)), if caching then Some([]) else None, true)
      case Other(message) => FetchStep(Failure(UnexpectedError(message)), if caching then Some([]) else None, true)
  }

  /** The slot of a keyed cache: `cache[key]` when the cache exists and holds the key. */
  function Slot<T>(cache: Option<map<string, seq<T>>>, key: string): Option<seq<T>> {
    if cache.Some? && key in cache.value then Some(cache.value[key]) else None
  }

  /** A keyed cache after a write into the slot of `key`; a missing cache is
      first created empty. */
  function StoreSlot<T>(cache: Option<map<string, seq<T>>>, key: string, store: Option<seq<T>>): (r: Option<map<string, seq<T>>>)
    ensures store.None? ==> r == cache
    ensures store.Some? ==> Slot(r, key) == store
    ensures forall other :: other != key ==> Slot(r, other) == Slot(cache, other)
  {
    if store.None? then cache
    else Some(cache.GetOr(map[])[key := store.value])
  }

  /** The unkeyed cache after a write. */
  function StoreWhole<T>(cache: Option<seq<T>>, store: Option<seq<T>>): Option<seq<T>> {
    if store.None? then cache else store
  }

  /** With caching on, a failed fetch is replayed: the next `use_cache` call
      for the same key returns `[]` without calling the vendor, whatever the
      vendor would answer now. */
  lemma FailedFetchIsReplayed<T>(cache: Option<map<string, seq<T>>>, key: string, useCache: bool,
                                 outcome: Outcome<T>, dashboard: bool, later: Outcome<T>)
    requires !outcome.Ok?
    requires Fetch(Slot(cache, key), useCache, true, true, outcome).called
    ensures
      var cache' := StoreSlot(cache, key, Fetch(Slot(cache, key), useCache, true, true, outcome).store);
      var again := Fetch(Slot(cache', key), true, true, dashboard, later);
      again.result == Success([]) && !again.called
  {
  }

  /** With caching on, a successful fetch is replayed: the next `use_cache`
      call for the same key returns the same data without calling the vendor. */
  lemma SuccessfulFetchIsReplayed<T>(cache: Option<map<string, seq<T>>>, key: string, useCache: bool,
                                     data: seq<T>, dashboard: bool, later: Outcome<T>)
    requires Fetch(Slot(cache, key), useCache, true, true, Ok(data)).called
    ensures
      var cache' := StoreSlot(cache, key, Fetch(Slot(cache, key), useCache, true, true, Ok(data)).store);
      var again := Fetch(Slot(cache', key), true, true, dashboard, later);
      again.result == Success(data) && !again.called
  {
  }

  // ---------------------------------------------------------------------
  // The wrapper object

  class MerakiApiWrapper {
    var apiKey: Option<string>
    var organizationId: Option<string>
    var organizationName: Option<string>
    var networkId: Option<string>
    var networkName: Option<string>
    var cachingEnabled: bool
    /** Whether the vendor `DashboardAPI` client object exists. */
    var hasDashboard: bool
    var organizationsCache: Option<seq<RawOrganization>>
    var networksCache: Option<map<string, seq<RawNetwork>>>
    var required: map<string, bool>

    /** The client exists exactly when the key is non-empty. `set_api_key`
        is the only writer of the key and keeps the client in step with it;
        `get_dashboard` writes the client only when a key has no client,
        which this excludes. */
    predicate Valid()
      reads this
    {
      hasDashboard == Truthy(apiKey)
    }

    predicate ApiKeySet() reads this { Truthy(apiKey) }
    predicate OrganizationIdSet() reads this { Truthy(organizationId) }
    predicate NetworkIdSet() reads this { Truthy(networkId) }

    /** Every parameter flagged as required holds a non-empty value. */
    predicate RequiredParametersSet()
      reads this
    {
      (Flag(required, KEY_API_KEY) ==> ApiKeySet()) &&
      (Flag(required, KEY_ORGANIZATION_ID) ==> OrganizationIdSet()) &&
      (Flag(required, KEY_NETWORK_ID) ==> NetworkIdSet())
    }

    /** `__init__`; `envApiKey` is the value of the `MK_CSM_KEY` environment variable. */
    constructor (initialApiKey: Option<string>, enableCaching: bool, envApiKey: Option<string>)
      ensures Valid()
      ensures apiKey == ChooseApiKey(initialApiKey, envApiKey)
      ensures organizationId == None && organizationName == None
      ensures networkId == None && networkName == None
      ensures cachingEnabled == enableCaching
      ensures organizationsCache == None && networksCache == None
      ensures required == map[]
    {
      apiKey := None;
      organizationId, organizationName := None, None;
      networkId, networkName := None, None;
      cachingEnabled := enableCaching;
      hasDashboard := false;
      organizationsCache, networksCache := None, None;
      required := map[];
      new;
      SetApiKey(initialApiKey, envApiKey);
    }

    /** `set_api_key`: stores the chosen key and creates the client exactly
        when that key is non-empty. */
    method SetApiKey(key: Option<string>, envApiKey: Option<string>)
      modifies this`apiKey, this`hasDashboard
      ensures apiKey == ChooseApiKey(key, envApiKey)
      ensures Valid()
      ensures hasDashboard <==> Truthy(key) || Truthy(envApiKey)
    {
      if Truthy(key) {
        apiKey := key;
      } else {
        var envKey := envApiKey;
        if Truthy(envKey) {
          apiKey := envKey;
        } else {
          apiKey := None;
        }
      }
      if Truthy(apiKey) {
        hasDashboard := true;
      } else {
        hasDashboard := false;
      }
    }

    /** `set_organization_id` */
    method SetOrganizationId(id: Option<string>, name: Option<string>)
      modifies this`organizationId, this`organizationName
      ensures (organizationId, organizationName) == SetAttr((old(organizationId), old(organizationName)), id, name)
    {
      if Truthy(id) {
        organizationId := id;
        if Truthy(name) {
          organizationName := name;
        }
      }
    }

    /** `set_network_id` */
    method SetNetworkId(id: Option<string>, name: Option<string>)
      modifies this`networkId, this`networkName
      ensures (networkId, networkName) == SetAttr((old(networkId), old(networkName)), id, name)
    {
      if Truthy(id) {
        networkId := id;
        if Truthy(name) {
          networkName := name;
        }
      }
    }

    /** What `_get_organizations` does in the current state. */
    function OrganizationsStep(useCache: bool, outcome: Outcome<RawOrganization>): (step: FetchStep<RawOrganization>)
      reads this
      ensures !hasDashboard ==> step.result == Failure(DashboardApiError(CLIENT_NOT_INITIALIZED)) && !step.called && step.store == None
    {
      if !hasDashboard then FetchStep(Failure(DashboardApiError(CLIENT_NOT_INITIALIZED)), None, false)
      // the client exists, so `get_dashboard` inside `_fetch_data` returns it
      else Fetch(organizationsCache, useCache, cachingEnabled, true, outcome)
    }

    /** What `_get_networks` does in the current state. */
    function NetworksStep(organizationIdArg: Option<string>, useCache: bool, outcome: Outcome<RawNetwork>): (step: FetchStep<RawNetwork>)
      reads this
      ensures !hasDashboard ==> step.result == Failure(DashboardApiError(CLIENT_NOT_INITIALIZED)) && !step.called
      ensures hasDashboard && !Truthy(OrElse(organizationIdArg, organizationId)) ==>
        step.result == Failure(NoOrganizationSelected(SELECT_ORGANIZATION_FIRST)) && !step.called
      ensures !step.called ==> step.store == None
    {
      if !hasDashboard then FetchStep(Failure(DashboardApiError(CLIENT_NOT_INITIALIZED)), None, false)
      else
        var orgId := OrElse(organizationIdArg, organizationId);
        if !Truthy(orgId) then FetchStep(Failure(NoOrganizationSelected(SELECT_ORGANIZATION_FIRST)), None, false)
        else Fetch(Slot(networksCache, orgId.value), useCache, cachingEnabled, true, outcome)
    }

    /** The organization id `_get_networks` uses as cache key. */
    function NetworksKey(organizationIdArg: Option<string>): string
      reads this
    {
      OrElse(organizationIdArg, organizationId).GetOr("")
    }

    /** `_get_organizations`: the unkeyed `_fetch_data` on the organizations cache. */
    method GetOrganizations(useCache: bool, outcome: Outcome<RawOrganization>)
      returns (r: Result<seq<RawOrganization>, ApiError>, called: bool)
      modifies this`organizationsCache
      ensures var step := old(OrganizationsStep(useCache, outcome));
        r == step.result && called == step.called &&
        organizationsCache == StoreWhole(old(organizationsCache), step.store)
      ensures !hasDashboard ==> r.Failure? && r.error.DashboardApiError?
    {
      if !hasDashboard {
        return Failure(DashboardApiError(CLIENT_NOT_INITIALIZED)), false;
      }
      var cache := organizationsCache;
      if useCache && cachingEnabled && cache.Some? {
        return Success(cache.value), false;
      }
      called := true;
      match outcome {
        case Ok(data) =>
          if cachingEnabled {
            organizationsCache := Some(data);
          }
          r := Success(data);
        case ApiErr(status, message) =>
          if cachingEnabled {
            organizationsCache := Some([]);
          }
          r := Failure(MerakiApiError(message, status));
        case Other(message) =>
          if cachingEnabled {
            organizationsCache := Some([]);
          }
          r := Failure(UnexpectedError(message));
      }
    }

    /** Writes `data` into the networks cache under `key`, creating the cache
        dictionary when it does not exist yet. */
    method StoreNetworks(key: string, data: seq<RawNetwork>)
      modifies this`networksCache
      ensures networksCache == StoreSlot(old(networksCache), key, Some(data))
    {
      if networksCache.None? {
        networksCache := Some(map[]);
      }
      networksCache := Some(networksCache.value[key := data]);
    }

    /** `_get_networks`: the keyed `_fetch_data` on the networks cache. */
    method GetNetworks(organizationIdArg: Option<string>, useCache: bool, outcome: Outcome<RawNetwork>)
      returns (r: Result<seq<RawNetwork>, ApiError>, called: bool)
      modifies this`networksCache
      ensures var step := old(NetworksStep(organizationIdArg, useCache, outcome));
        r == step.result && called == step.called &&
        networksCache == StoreSlot(old(networksCache), old(NetworksKey(organizationIdArg)), step.store)
      ensures !hasDashboard ==> r.Failure? && r.error.DashboardApiError?
      ensures !called ==> networksCache == old(networksCache)
    {
      if !hasDashboard {
        return Failure(DashboardApiError(CLIENT_NOT_INITIALIZED)), false;
      }
      var orgId := OrElse(organizationIdArg, organizationId);
      if !Truthy(orgId) {
        return Failure(NoOrganizationSelected(SELECT_ORGANIZATION_FIRST)), false;
      }
      var key := orgId.value;
      var cache := networksCache;
      if useCache && cachingEnabled {
        if cache.Some? && key in cache.value {
          return Success(cache.value[key]), false;
        }
      }
      called := true;
      match outcome {
        case Ok(data) =>
          if cachingEnabled {
            StoreNetworks(key, data);
          }
          r := Success(data);
        case ApiErr(status, message) =>
          if cachingEnabled {
            StoreNetworks(key, []);
          }
          r := Failure(MerakiApiError(message, status));
        case Other(message) =>
          if cachingEnabled {
            StoreNetworks(key, []);
          }
          r := Failure(UnexpectedError(message));
      }
    }

    /** `list_organizations`: error records pass through unchanged; otherwise
        one projected record per organization, in order. */
    method ListOrganizations(useCache: bool, outcome: Outcome<RawOrganization>)
      returns (r: Result<seq<OrganizationRecord>, ApiError>)
      modifies this`organizationsCache
      ensures var step := old(OrganizationsStep(useCache, outcome));
        organizationsCache == StoreWhole(old(organizationsCache), step.store) &&
        (step.result.Failure? ==> r == Failure(step.result.error)) &&
        (step.result.Success? ==>
           r.Success? && |r.value| == |step.result.value| &&
           (forall i :: 0 <= i < |r.value| ==> r.value[i] == ToOrganizationRecord(step.result.value[i])))
    {
      var raw, _ := GetOrganizations(useCache, outcome);
      if raw.Failure? {
        return Failure(raw.error);
      }
      if raw.value == [] {
        return Success([]);
      }
      r := Success(MapSeq(ToOrganizationRecord, raw.value));
    }

    /** The root `list_networks`: a `ConfigurationError` when no organization id
        can be determined; otherwise the networks of the organization that
        match both filters, in order, projected to records. */
    method ListNetworks(organizationIdArg: Option<string>, useCache: bool,
                        filterTags: Option<seq<string>>, filterProductTypes: Option<seq<string>>,
                        outcome: Outcome<RawNetwork>)
      returns (r: Result<seq<NetworkRecord>, ApiError>)
      modifies this`networksCache
      ensures !Truthy(OrElse(organizationIdArg, old(organizationId))) ==>
        r == Failure(ConfigurationError(ORGANIZATION_UNDETERMINED)) && networksCache == old(networksCache)
      ensures Truthy(OrElse(organizationIdArg, old(organizationId))) ==>
        var step := old(NetworksStep(organizationIdArg, useCache, outcome));
        networksCache == StoreSlot(old(networksCache), old(NetworksKey(organizationIdArg)), step.store) &&
        (step.result.Failure? ==> r == Failure(step.result.error)) &&
        (step.result.Success? ==> r == Success(MapSeq(ToNetworkRecord, Filtered(step.result.value, filterTags, filterProductTypes))))
    {
      var orgId := OrElse(organizationIdArg, organizationId);
      if !Truthy(orgId) {
        return Failure(ConfigurationError(ORGANIZATION_UNDETERMINED));
      }
      var response, _ := GetNetworks(organizationIdArg, useCache, outcome);
      if response.Failure? {
        return Failure(response.error);
      }
      if response.value == [] {
        return Success([]);
      }
      var filtered := FilterNetworks(response.value, filterTags, filterProductTypes);
      if filtered == [] {
        return Success([]);
      }
      r := Success(MapSeq(ToNetworkRecord, filtered));
    }

    /** The packaged `list_networks`: error records pass through unchanged;
        otherwise exactly one summary per raw network, in order, with the
        tags joined by ", ". */
    method ListNetworksJoined(organizationIdArg: Option<string>, useCache: bool, outcome: Outcome<RawNetwork>)
      returns (r: Result<seq<NetworkSummary>, ApiError>)
      modifies this`networksCache
      ensures var step := old(NetworksStep(organizationIdArg, useCache, outcome));
        networksCache == StoreSlot(old(networksCache), old(NetworksKey(organizationIdArg)), step.store) &&
        (step.result.Failure? ==> r == Failure(step.result.error)) &&
        (step.result.Success? ==>
           r.Success? && |r.value| == |step.result.value| &&
           (forall i :: 0 <= i < |r.value| ==> r.value[i] == ToNetworkSummary(step.result.value[i])))
    {
      var response, _ := GetNetworks(organizationIdArg, useCache, outcome);
      if response.Failure? {
        return Failure(response.error);
      }
      if response.value == [] {
        return Success([]);
      }
      r := Success(MapSeq(ToNetworkSummary, response.value));
    }

    /** `setup_application_parameters`; `params` is the parameter-value map
        (`None` and `{}` alike), `envApiKey` the `MK_CSM_KEY` value. */
    method SetupApplicationParameters(requiredParams: map<string, bool>, params: map<string, string>,
                                      enableCaching: Option<bool>, envApiKey: Option<string>)
      returns (ok: bool)
      requires Valid()
      modifies this`cachingEnabled, this`required, this`apiKey, this`hasDashboard,
               this`organizationId, this`organizationName, this`networkId, this`networkName
      ensures Valid()
      ensures cachingEnabled == enableCaching.GetOr(old(cachingEnabled))
      ensures ok <==> SetupSucceeds(requiredParams, params, envApiKey)
      ensures ok ==> RequiredParametersSet()
      ensures required == (if RequiredOrderValid(requiredParams) then requiredParams else old(required))
      ensures apiKey == (if RequiredOrderValid(requiredParams) && Flag(requiredParams, KEY_API_KEY)
                         then ChooseApiKey(Param(params, KEY_API_KEY), envApiKey) else old(apiKey))
      ensures (organizationId, organizationName) ==
        if ReachesOrganizationStep(requiredParams, params, envApiKey)
        then SetAttr((old(organizationId), old(organizationName)), Param(params, KEY_ORGANIZATION_ID), Param(params, KEY_ORG_NAME))
        else (old(organizationId), old(organizationName))
      ensures (networkId, networkName) ==
        if ReachesNetworkStep(requiredParams, params, envApiKey)
        then SetAttr((old(networkId), old(networkName)), Param(params, KEY_NETWORK_ID), Param(params, KEY_NET_NAME))
        else (old(networkId), old(networkName))
    {
      if enableCaching.Some? {
        cachingEnabled := enableCaching.value;
      }
      if !RequiredOrderValid(requiredParams) {
        return false;
      }
      required := requiredParams;

      if Flag(requiredParams, KEY_API_KEY) {
        SetApiKey(Param(params, KEY_API_KEY), envApiKey);
        if !ApiKeySet() {
          return false;
        }
      }

      if Flag(requiredParams, KEY_ORGANIZATION_ID) {
        // the ordering check makes the source's "key set first" re-check pass
        assert ApiKeySet();
        var orgId := Param(params, KEY_ORGANIZATION_ID);
        var orgName := Param(params, KEY_ORG_NAME);
        if Truthy(orgId) {
          SetOrganizationId(orgId, orgName);
        } else {
          return false;
        }
        assert OrganizationIdSet();
      }

      if Flag(requiredParams, KEY_NETWORK_ID) {
        // the ordering check makes the source's "key and organization set first" re-check pass
        assert ApiKeySet() && OrganizationIdSet();
        var netId := Param(params, KEY_NETWORK_ID);
        var netName := Param(params, KEY_NET_NAME);
        if Truthy(netId) {
          SetNetworkId(netId, netName);
        } else {
          return false;
        }
        assert NetworkIdSet();
      }
      return true;
    }

    /** `check_current_parameters_status` */
    method CheckCurrentParametersStatus() returns (ok: bool, missing: seq<string>)
      ensures required == map[] ==> !ok && missing == [NO_REQUIRED_PARAMETERS]
      ensures required != map[] && !RequiredOrderValid(required) ==> !ok && missing == [INVALID_CONFIGURATION]
      ensures ok <==> required != map[] && RequiredOrderValid(required) && RequiredParametersSet()
      ensures ok ==> missing == []
      ensures required != map[] && RequiredOrderValid(required) ==>
        (forall i :: 0 <= i < |missing| ==> missing[i] in MISSING_ORDER) &&
        (forall i, j :: 0 <= i < j < |missing| ==> MissingRank(missing[i]) < MissingRank(missing[j])) &&
        (MISSING_API_KEY in missing <==> Flag(required, KEY_API_KEY) && !ApiKeySet()) &&
        (MISSING_ORGANIZATION_ID in missing <==> Flag(required, KEY_ORGANIZATION_ID) && !OrganizationIdSet()) &&
        (MISSING_NETWORK_ID in missing <==> Flag(required, KEY_NETWORK_ID) && !NetworkIdSet())
    {
      if required == map[] {
        return false, [NO_REQUIRED_PARAMETERS];
      }
      if !RequiredOrderValid(required) {
        return false, [INVALID_CONFIGURATION];
      }
      missing := [];
      if Flag(required, KEY_API_KEY) && !ApiKeySet() {
        missing := missing + [MISSING_API_KEY];
      }
      if Flag(required, KEY_ORGANIZATION_ID) && !OrganizationIdSet() {
        missing := missing + [MISSING_ORGANIZATION_ID];
      }
      if Flag(required, KEY_NETWORK_ID) && !NetworkIdSet() {
        missing := missing + [MISSING_NETWORK_ID];
      }
      if missing != [] {
        return false, missing;
      }
      return true, [];
    }

    /** `get_current_app_params`: one entry per required parameter, the API
        key masked, absent values shown as "N/A". */
    function CurrentAppParams(): (r: map<string, ParamEntry>)
      reads this
      ensures KEY_API_KEY in r <==> Flag(required, KEY_API_KEY)
      ensures KEY_ORGANIZATION_ID in r <==> Flag(required, KEY_ORGANIZATION_ID)
      ensures KEY_ORGANIZATION_NAME in r <==> Flag(required, KEY_ORGANIZATION_ID)
      ensures KEY_NETWORK_ID in r <==> Flag(required, KEY_NETWORK_ID)
      ensures KEY_NETWORK_NAME in r <==> Flag(required, KEY_NETWORK_ID)
      ensures r.Keys <= {KEY_API_KEY, KEY_ORGANIZATION_ID, KEY_ORGANIZATION_NAME, KEY_NETWORK_ID, KEY_NETWORK_NAME}
      ensures KEY_API_KEY in r ==> r[KEY_API_KEY].value == MaskApiKey(apiKey)
      ensures KEY_ORGANIZATION_ID in r ==> r[KEY_ORGANIZATION_ID].value == OrNotAvailable(organizationId)
      ensures KEY_NETWORK_ID in r ==> r[KEY_NETWORK_ID].value == OrNotAvailable(networkId)
      ensures KEY_ORGANIZATION_NAME in r ==> r[KEY_ORGANIZATION_NAME].value == OrNotAvailable(organizationName)
      ensures KEY_NETWORK_NAME in r ==> r[KEY_NETWORK_NAME].value == OrNotAvailable(networkName)
      ensures KEY_API_KEY in r ==> r[KEY_API_KEY].displayLabel == "API Key"
      ensures KEY_ORGANIZATION_ID in r ==> r[KEY_ORGANIZATION_ID].displayLabel == "Organization ID"
      ensures KEY_ORGANIZATION_NAME in r ==> r[KEY_ORGANIZATION_NAME].displayLabel == "Organization Name"
      ensures KEY_NETWORK_ID in r ==> r[KEY_NETWORK_ID].displayLabel == "Network ID"
      ensures KEY_NETWORK_NAME in r ==> r[KEY_NETWORK_NAME].displayLabel == "Network Name"
    {
      var withKey: map<string, ParamEntry> :=
        if Flag(required, KEY_API_KEY) then map[KEY_API_KEY := ParamEntry(MaskApiKey(apiKey), "API Key")] else map[];
      var withOrg :=
        if Flag(required, KEY_ORGANIZATION_ID)
        then withKey[KEY_ORGANIZATION_ID := ParamEntry(OrNotAvailable(organizationId), "Organization ID")]
                    [KEY_ORGANIZATION_NAME := ParamEntry(OrNotAvailable(organizationName), "Organization Name")]
        else withKey;
      if Flag(required, KEY_NETWORK_ID)
      then withOrg[KEY_NETWORK_ID := ParamEntry(OrNotAvailable(networkId), "Network ID")]
                  [KEY_NETWORK_NAME := ParamEntry(OrNotAvailable(networkName), "Network Name")]
      else withOrg
    }
  }

  /** The API-key step of the setup passes: the key is not required, or the
      key chosen from the argument and the environment is non-empty. */
  predicate ApiKeyStepPasses(requiredParams: map<string, bool>, params: map<string, string>, envApiKey: Option<string>) {
    !Flag(requiredParams, KEY_API_KEY) || Truthy(ChooseApiKey(Param(params, KEY_API_KEY), envApiKey))
  }

  /** The organization step passes: not required, or a non-empty id is given. */
  predicate OrganizationStepPasses(requiredParams: map<string, bool>, params: map<string, string>) {
    !Flag(requiredParams, KEY_ORGANIZATION_ID) || Truthy(Param(params, KEY_ORGANIZATION_ID))
  }

  /** The network step passes: not required, or a non-empty id is given. */
  predicate NetworkStepPasses(requiredParams: map<string, bool>, params: map<string, string>) {
    !Flag(requiredParams, KEY_NETWORK_ID) || Truthy(Param(params, KEY_NETWORK_ID))
  }

  /** The setup stores an organization. */
  predicate ReachesOrganizationStep(requiredParams: map<string, bool>, params: map<string, string>, envApiKey: Option<string>) {
    RequiredOrderValid(requiredParams) && ApiKeyStepPasses(requiredParams, params, envApiKey) &&
    Flag(requiredParams, KEY_ORGANIZATION_ID)
  }

  /** The setup stores a network. */
  predicate ReachesNetworkStep(requiredParams: map<string, bool>, params: map<string, string>, envApiKey: Option<string>) {
    RequiredOrderValid(requiredParams) && ApiKeyStepPasses(requiredParams, params, envApiKey) &&
    OrganizationStepPasses(requiredParams, params) && Flag(requiredParams, KEY_NETWORK_ID)
  }

  /** The setup returns `True`: the ordering is valid and every step passes. */
  predicate SetupSucceeds(requiredParams: map<string, bool>, params: map<string, string>, envApiKey: Option<string>) {
    RequiredOrderValid(requiredParams) && ApiKeyStepPasses(requiredParams, params, envApiKey) &&
    OrganizationStepPasses(requiredParams, params) && NetworkStepPasses(requiredParams, params)
  }
}
