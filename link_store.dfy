/** The browser-side link store (app/stores/link.ts). A request's outcome is an
    input: `Ok` with the decoded body, or `Err` when `$fetch` rejects. An
    operation that sets `loading` before awaiting is split at the await into a
    `Begin` step and an `End` step, so the state seen while the request is in
    flight is the state after `Begin`. */
module LinkStoreClient {
  import opened Common

  /** The rejection `$fetch` raises, by HTTP status. */
  datatype FetchError = FetchError(status: int)

  /** `ShortLinkItem` as the client declares it; instants are ISO strings here. */
  datatype ShortLinkItem = ShortLinkItem(
    id: nat,
    alias: string,
    shortUrl: string,
    destinationUrl: string,
    description: string,
    status: int,
    expiresAt: Option<string>,
    maxVisits: int,
    visitCount: int,
    lastVisitedAt: Option<string>,
    created: string)

  datatype StatsLink = StatsLink(alias: string, destinationUrl: string, description: string, created: string,
                                 visitCount: int, expiresAt: Option<string>)
  datatype StatsSummary = StatsSummary(totalVisits: int, uniqueVisitors: int, lastVisit: Option<string>, rangeDays: int)
  datatype StatsBucket = StatsBucket(id: nat, bucketStart: string, visits: int, uniqueIps: int)
  datatype RecentVisit = RecentVisit(id: nat, created: string, referer: string, ip: string, userAgent: string)

  datatype LinkStatsResponse = LinkStatsResponse(link: StatsLink, summary: StatsSummary,
                                                 buckets: seq<StatsBucket>, recent: seq<RecentVisit>)

  /** The selection `fetchLinks` leaves: the first fetched alias when there is
      one and nothing was selected, else the old selection. */
  function SelectionAfterFetch(selected: string, data: seq<ShortLinkItem>): (s: string)
    ensures selected != "" ==> s == selected
    ensures data == [] ==> s == selected
    ensures selected == "" && data != [] ==> s == data[0].alias
  {
    if |data| > 0 && selected == "" then data[0].alias else selected
  }

  class LinkStore {
    var items: seq<ShortLinkItem>
    var loading: bool
    var stats: map<string, LinkStatsResponse>
    var selectedAlias: string

    constructor ()
      ensures items == [] && !loading && stats == map[] && selectedAlias == ""
    {
      items := [];
      loading := false;
      stats := map[];
      selectedAlias := "";
    }

    /** `fetchLinks` up to its await: `loading` is set and nothing else changes. */
    method BeginFetchLinks()
      modifies this`loading
      ensures loading
    {
      loading := true;
    }

    /** `fetchLinks` after its await. On success `items` is the fetched list and
        the first alias is selected only when nothing was; on failure `items`
        and the selection stay. Either way `loading` ends false (`finally`). */
    method EndFetchLinks(response: Result<seq<ShortLinkItem>, FetchError>) returns (r: Result<(), FetchError>)
      modifies this`items, this`selectedAlias, this`loading
      ensures !loading
      ensures response.Ok? ==> r == Ok(()) && items == response.value
                               && selectedAlias == SelectionAfterFetch(old(selectedAlias), response.value)
      ensures response.Err? ==> r == Err(response.error) && items == old(items) && selectedAlias == old(selectedAlias)
    {
      if response.Err? {
        loading := false;
        return Err(response.error);
      }
      var data := response.value;
      items := data;
      if |data| > 0 && selectedAlias == "" {
        selectedAlias := data[0].alias;
      }
      loading := false;
      r := Ok(());
    }

    /** `createLink`: on success the new link is put first and selected and is
        returned; on failure nothing changes. */
    method CreateLink(response: Result<ShortLinkItem, FetchError>) returns (r: Result<ShortLinkItem, FetchError>)
      modifies this`items, this`selectedAlias
      ensures r == response
      ensures response.Ok? ==> items == [response.value] + old(items) && selectedAlias == response.value.alias
      ensures response.Err? ==> items == old(items) && selectedAlias == old(selectedAlias)
    {
      if response.Err? {
        return response;
      }
      var newLink := response.value;
      items := [newLink] + items;
      selectedAlias := newLink.alias;
      r := Ok(newLink);
    }

    /** `fetchStats(alias, range)`: on success the result is stored under
        `alias`, every other key kept; on failure `stats` stays. */
    method FetchStats(alias: string, range: int, response: Result<LinkStatsResponse, FetchError>)
      returns (r: Result<LinkStatsResponse, FetchError>)
      modifies this`stats
      ensures r == response
      ensures response.Ok? ==> alias in stats && stats[alias] == response.value
      ensures response.Ok? ==> stats.Keys == old(stats).Keys + {alias}
      ensures response.Ok? ==> forall a :: a in old(stats) && a != alias ==> stats[a] == old(stats)[a]
      ensures response.Err? ==> stats == old(stats)
    {
      if response.Err? {
        return response;
      }
      stats := stats[alias := response.value];
      r := response;
    }

    /** `setSelected`: only the selection changes. */
    method SetSelected(alias: string)
      modifies this`selectedAlias
      ensures selectedAlias == alias
    {
      selectedAlias := alias;
    }
  }
}
