/** The pure parts of `list_networks` and `list_organizations`: the vendor's
    raw organization and network records, the "any-match" tag and
    product-type filter of the root wrapper, and the projections both
    wrapper variants apply to the raw records. */
module NetworkListing {
  import opened Common

  /** The `api` sub-record of a raw organization. */
  datatype ApiSettings = ApiSettings(enabled: Option<bool>)

  /** The `licensing` sub-record of a raw organization. */
  datatype Licensing = Licensing(model: Option<string>)

  /** An organization as the vendor returns it; `None` stands for an absent key. */
  datatype RawOrganization = RawOrganization(
    id: string,
    name: Option<string>,
    url: Option<string>,
    api: Option<ApiSettings>,
    licensing: Option<Licensing>)

  /** A network as the vendor returns it; `None` stands for an absent key. */
  datatype RawNetwork = RawNetwork(
    id: string,
    name: Option<string>,
    networkType: Option<string>,
    timeZone: Option<string>,
    tags: Option<seq<string>>,
    productTypes: Option<seq<string>>)

  /** The record `list_organizations` returns for one organization. */
  datatype OrganizationRecord = OrganizationRecord(
    id: string,
    name: Option<string>,
    url: Option<string>,
    apiEnabled: bool,
    licensingModel: Option<string>)

  /** The record the root `list_networks` returns: tags and product types as lists. */
  datatype NetworkRecord = NetworkRecord(
    id: string,
    name: Option<string>,
    networkType: Option<string>,
    timeZone: Option<string>,
    tags: seq<string>,
    productTypes: seq<string>)

  /** The record the packaged `list_networks` returns: tags joined into one string. */
  datatype NetworkSummary = NetworkSummary(
    id: string,
    name: Option<string>,
    networkType: Option<string>,
    timeZone: Option<string>,
    tags: string)

  // ---------------------------------------------------------------------
  // Organizations

  /** One organization projected for display; "api enabled" defaults to false
      when the `api` record or its `enabled` flag is absent. */
  function ToOrganizationRecord(org: RawOrganization): (r: OrganizationRecord)
    ensures r.apiEnabled <==> org.api == Some(ApiSettings(Some(true)))
    ensures r.licensingModel.Some? ==> org.licensing.Some? && org.licensing.value.model == r.licensingModel
    ensures org.licensing.Some? ==> r.licensingModel == org.licensing.value.model
    ensures r.id == org.id && r.name == org.name && r.url == org.url
  {
    OrganizationRecord(
      org.id, org.name, org.url,
      match org.api { case None => false case Some(a) => a.enabled.GetOr(false) },
      match org.licensing { case None => None case Some(l) => l.model })
  }

  // ---------------------------------------------------------------------
  // Networks: the any-match filter of the root wrapper

  /** `net.get("tags", [])` */
  function TagsOf(net: RawNetwork): seq<string> {
    net.tags.GetOr([])
  }

  /** `net.get("productTypes", [])` */
  function ProductTypesOf(net: RawNetwork): seq<string> {
    net.productTypes.GetOr([])
  }

  /** A filter that is `None` or empty is switched off; otherwise some
      requested value must be among the network's values. */
  predicate AnyMatch(filter: Option<seq<string>>, values: seq<string>) {
    filter.None? || filter.value == [] || exists t :: t in filter.value && t in values
  }

  /** Whether the root `list_networks` keeps a network. */
  predicate Keep(net: RawNetwork, filterTags: Option<seq<string>>, filterProductTypes: Option<seq<string>>) {
    AnyMatch(filterTags, TagsOf(net)) && AnyMatch(filterProductTypes, ProductTypesOf(net))
  }

  /** The networks the filter keeps, in input order (specification of the loop
      in `FilterNetworks`). */
  function Filtered(nets: seq<RawNetwork>, filterTags: Option<seq<string>>, filterProductTypes: Option<seq<string>>): (r: seq<RawNetwork>)
    ensures |r| <= |nets|
    ensures forall i :: 0 <= i < |r| ==> r[i] in nets && Keep(r[i], filterTags, filterProductTypes)
  {
    if nets == [] then []
    else
      var last := nets[|nets| - 1];
      Filtered(nets[..|nets| - 1], filterTags, filterProductTypes)
        + (if Keep(last, filterTags, filterProductTypes) then [last] else [])
  }

  /** A network is in the output exactly when it is in the input and matches
      both filters. */
  lemma {:induction false} FilteredMembership(nets: seq<RawNetwork>, filterTags: Option<seq<string>>, filterProductTypes: Option<seq<string>>, net: RawNetwork)
    ensures net in Filtered(nets, filterTags, filterProductTypes) <==> net in nets && Keep(net, filterTags, filterProductTypes)
  {
    if nets != [] {
      var init := nets[..|nets| - 1];
      FilteredMembership(init, filterTags, filterProductTypes, net);
      assert nets == init + [nets[|nets| - 1]];
    }
  }

  /** Filtering preserves order: filtering a concatenation is the concatenation
      of the filtered parts. */
  lemma {:induction false} FilteredAppend(a: seq<RawNetwork>, b: seq<RawNetwork>, filterTags: Option<seq<string>>, filterProductTypes: Option<seq<string>>)
    ensures Filtered(a + b, filterTags, filterProductTypes) == Filtered(a, filterTags, filterProductTypes) + Filtered(b, filterTags, filterProductTypes)
    decreases |b|
  {
    if b == [] {
      assert a + b == a;
    } else {
      var binit := b[..|b| - 1];
      FilteredAppend(a, binit, filterTags, filterProductTypes);
      assert (a + b)[..|a + b| - 1] == a + binit;
    }
  }

  /** With both filters switched off every network is kept. */
  lemma {:induction false} FilteredWithoutFilters(nets: seq<RawNetwork>)
    ensures Filtered(nets, None, None) == nets
  {
    if nets != [] {
      FilteredWithoutFilters(nets[..|nets| - 1]);
    }
  }

  /** The loop of the root `list_networks` that appends every matching network
      to `filtered_networks`. */
  method FilterNetworks(nets: seq<RawNetwork>, filterTags: Option<seq<string>>, filterProductTypes: Option<seq<string>>)
    returns (filtered: seq<RawNetwork>)
    ensures filtered == Filtered(nets, filterTags, filterProductTypes)
  {
    filtered := [];
    for i := 0 to |nets|
      invariant filtered == Filtered(nets[..i], filterTags, filterProductTypes)
    {
      var net := nets[i];
      var tagsMatch := true;
      if filterTags.Some? && filterTags.value != [] {
        if !(exists t :: t in filterTags.value && t in TagsOf(net)) {
          tagsMatch := false;
        }
      }
      var productTypeMatch := true;
      if filterProductTypes.Some? && filterProductTypes.value != [] {
        if !(exists p :: p in filterProductTypes.value && p in ProductTypesOf(net)) {
          productTypeMatch := false;
        }
      }
      if tagsMatch && productTypeMatch {
        filtered := filtered + [net];
      }
      assert nets[..i + 1][..i] == nets[..i];
    }
    assert nets[..|nets|] == nets;
  }

  /** One network projected by the root `list_networks`; absent tag and
      product-type lists become empty lists. */
  function ToNetworkRecord(net: RawNetwork): (r: NetworkRecord)
    ensures r.id == net.id && r.name == net.name && r.networkType == net.networkType && r.timeZone == net.timeZone
    ensures net.tags.Some? ==> r.tags == net.tags.value
    ensures net.tags.None? ==> r.tags == []
    ensures net.productTypes.Some? ==> r.productTypes == net.productTypes.value
    ensures net.productTypes.None? ==> r.productTypes == []
  {
    NetworkRecord(net.id, net.name, net.networkType, net.timeZone, TagsOf(net), ProductTypesOf(net))
  }

  // ---------------------------------------------------------------------
  // Networks: the packaged variant joins tags into one string

  /** `", ".join(tags)`: the first tag, then each further tag after ", ". */
  function JoinTags(tags: seq<string>): (r: string)
    ensures tags != [] ==> |tags[0]| <= |r| && r[..|tags[0]|] == tags[0]
    ensures |tags| > 1 ==> |tags[0]| + 2 <= |r| && r[|tags[0]|..|tags[0]| + 2] == ", "
    ensures PlainTags(tags) ==> (r == "" <==> tags == [])
  {
    if tags == [] then ""
    else if |tags| == 1 then tags[0]
    else tags[0] + ", " + JoinTags(tags[1..])
  }

  /** One network projected by the packaged `list_networks`; for plain tags
      the joined string still determines the tag list. */
  function ToNetworkSummary(net: RawNetwork): (r: NetworkSummary)
    ensures r.id == net.id && r.name == net.name && r.networkType == net.networkType && r.timeZone == net.timeZone
    ensures net.tags.None? ==> r.tags == ""
    ensures PlainTags(TagsOf(net)) ==> SplitTags(r.tags) == TagsOf(net)
  {
    var r := NetworkSummary(net.id, net.name, net.networkType, net.timeZone, JoinTags(TagsOf(net)));
    if PlainTags(TagsOf(net)) then TagsRoundTrip(TagsOf(net)); r else r
  }

  /** The separator ", " starts at position `k` of `s`. */
  predicate SeparatorAt(s: string, k: int) {
    0 <= k && k + 1 < |s| && s[k] == ',' && s[k + 1] == ' '
  }

  /** `s` contains the separator ", " somewhere. */
  predicate HasSeparator(s: string) {
    exists k :: 0 <= k < |s| && SeparatorAt(s, k)
  }

  /** Index of the first ", " in `s`. */
  function FirstSeparator(s: string): (k: nat)
    requires HasSeparator(s)
    ensures SeparatorAt(s, k)
    ensures forall j :: 0 <= j < k ==> !SeparatorAt(s, j)
  {
    if SeparatorAt(s, 0) then 0
    else
      assert HasSeparator(s[1..]) by {
        var k :| 0 <= k < |s| && SeparatorAt(s, k);
        assert SeparatorAt(s[1..], k - 1);
      }
      var k := 1 + FirstSeparator(s[1..]);
      assert forall j :: 0 < j < k ==> (SeparatorAt(s, j) <==> SeparatorAt(s[1..], j - 1));
      k
  }

  /** `s.split(", ")` for a non-empty `s`: the pieces between successive
      occurrences of ", ", in order. */
  function SplitJoined(s: string): (pieces: seq<string>)
    ensures pieces != []
    decreases |s|
  {
    if !HasSeparator(s) then [s]
    else
      var k := FirstSeparator(s);
      [s[..k]] + SplitJoined(s[k + 2..])
  }

  /** The inverse of `JoinTags` on tags that are non-empty and free of commas. */
  function SplitTags(s: string): seq<string> {
    if s == "" then [] else SplitJoined(s)
  }

  /** Meraki-style tags: non-empty and without commas. */
  predicate PlainTags(tags: seq<string>) {
    forall i :: 0 <= i < |tags| ==> tags[i] != "" && ',' !in tags[i]
  }

  lemma {:induction false} FirstSeparatorOfJoin(a: string, rest: string)
    requires ',' !in a
    ensures HasSeparator(a + ", " + rest) && FirstSeparator(a + ", " + rest) == |a|
  {
    var s := a + ", " + rest;
    assert SeparatorAt(s, |a|);
    if a != [] {
      assert s[0] == a[0];
      assert s[1..] == a[1..] + ", " + rest;
      FirstSeparatorOfJoin(a[1..], rest);
    }
  }

  lemma {:induction false} SplitJoinedOfJoin(tags: seq<string>)
    requires tags != [] && PlainTags(tags)
    ensures SplitJoined(JoinTags(tags)) == tags
  {
    if |tags| == 1 {
    } else {
      var rest := JoinTags(tags[1..]);
      FirstSeparatorOfJoin(tags[0], rest);
      var s := tags[0] + ", " + rest;
      assert s[..|tags[0]|] == tags[0];
      assert s[|tags[0]| + 2..] == rest;
      SplitJoinedOfJoin(tags[1..]);
      assert tags == [tags[0]] + tags[1..];
    }
  }

  /** Joining loses nothing on plain tags: splitting the joined string at
      ", " gives the tag list back. */
  lemma TagsRoundTrip(tags: seq<string>)
    requires PlainTags(tags)
    ensures SplitTags(JoinTags(tags)) == tags
  {
    if tags != [] {
      SplitJoinedOfJoin(tags);
      assert JoinTags(tags) != "" by {
        if |tags| > 1 { assert |JoinTags(tags)| >= |tags[0]| + 2; }
      }
    }
  }
  lemma JoinTagsCons(first: string, more: seq<string>)
    requires more != []
    ensures JoinTags([first] + more) == first + ", " + JoinTags(more)
  {
    assert ([first] + more)[1..] == more;
  }

  lemma {:induction false} JoinOfSplitJoined(s: string)
    ensures JoinTags(SplitJoined(s)) == s
    decreases |s|
  {
    if HasSeparator(s) {
      var k := FirstSeparator(s);
      var rest := s[k + 2..];
      JoinOfSplitJoined(rest);
      var pieces := SplitJoined(rest);
      assert SplitJoined(s) == [s[..k]] + pieces;
      JoinTagsCons(s[..k], pieces);
      assert s == s[..k] + ", " + rest by {
        assert s == s[..k] + s[k..k + 2] + s[k + 2..];
        assert s[k..k + 2] == ", ";
      }
    }
  }

  /** Splitting loses nothing either: joining the pieces of any string at
      ", " gives the string back, so a joined tag string is determined by
      the tags it splits into. */
  lemma SplitRoundTrip(s: string)
    ensures JoinTags(SplitTags(s)) == s
  {
    if s != "" {
      JoinOfSplitJoined(s);
    }
  }

}
