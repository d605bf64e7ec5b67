/** The dashboard: the recent-requests list, the stat cards, the urgency
    colours, the side menu with its highlight and the four-item mobile bar. */
module Dashboard {
  import opened Wrappers
  import opened Text
  import opened Domain
  import opened UrlParams
  import BloodRequests

  /** The figures the stat cards show, as `GET /stats` returns them. */
  datatype Stats = Stats(total_donors: nat, active_requests: nat, fulfilled_requests: nat, total_facilities: nat)

  /** The most recent requests the dashboard lists. */
  const RecentCount: nat := 5

  /** The query string `status=active` of the recent-requests fetch. */
  const RecentParams: seq<Param> := [("status", "active")]

  /** The dashboard asks for what the blood-requests page asks for with every
      filter cleared. */
  lemma RecentParamsUnfiltered()
    ensures RecentParams == BloodRequests.RequestParams(BloodRequests.NoFilters)
  {
    BloodRequests.ClearedParams();
  }

  /** The stat cards, in display order; none while `stats` is null. */
  function StatCards(stats: Option<Stats>): (cards: seq<nat>)
    ensures cards == [] <==> stats.None?
    ensures stats.Some? ==>
              && |cards| == 4
              && cards[0] == stats.value.total_donors
              && cards[1] == stats.value.active_requests
              && cards[2] == stats.value.fulfilled_requests
              && cards[3] == stats.value.total_facilities
  {
    match stats
    case None => []
    case Some(s) => [s.total_donors, s.active_requests, s.fulfilled_requests, s.total_facilities]
  }

  /** The badge classes of the four urgency levels, without borders. */
  const UrgencyClasses: map<string, string> := map[
    "low" := "bg-green-100 text-green-700",
    "medium" := "bg-yellow-100 text-yellow-700",
    "high" := "bg-orange-100 text-orange-700",
    "critical" := "bg-red-100 text-red-700"]

  /** `getUrgencyColor`: a known level's classes, medium's for anything else. */
  function UrgencyColor(urgency: string): (c: string)
    ensures urgency in UrgencyClasses ==> c == UrgencyClasses[urgency]
    ensures urgency !in UrgencyClasses ==> c == UrgencyClasses["medium"]
    ensures c in UrgencyClasses.Values
  {
    if urgency in UrgencyClasses && UrgencyClasses[urgency] != "" then UrgencyClasses[urgency]
    else UrgencyClasses["medium"]
  }

  /** The dashboard and the blood-requests page know the same levels and
      agree on the fallback. */
  lemma SameUrgencyLevels(urgency: string)
    ensures urgency in UrgencyClasses <==> urgency in BloodRequests.UrgencyClasses
    ensures urgency !in UrgencyClasses ==>
              UrgencyColor(urgency) == UrgencyColor("medium") &&
              BloodRequests.UrgencyColor(urgency) == BloodRequests.UrgencyColor("medium")
  {
  }

  /** The four levels get four different badges. */
  lemma UrgencyColorsDistinct(a: string, b: string)
    requires a in UrgencyClasses && b in UrgencyClasses && a != b
    ensures UrgencyColor(a) != UrgencyColor(b)
  {
  }

  datatype MenuItem = MenuItem(caption: string, path: string)

  const MenuItems: seq<MenuItem> := [
    MenuItem("Dashboard", "/dashboard"),
    MenuItem("Blood Requests", "/blood-requests"),
    MenuItem("Create Request", "/create-request"),
    MenuItem("Medical Facilities", "/medical-facilities"),
    MenuItem("Donation History", "/donation-history")]

  /** A menu button is highlighted when the browser's path is its path. */
  predicate Highlighted(pathname: string, item: MenuItem)
  {
    pathname == item.path
  }

  /** At most one menu item is highlighted at a time. */
  lemma HighlightUnique(pathname: string, i: nat, j: nat)
    requires i < |MenuItems| && j < |MenuItems|
    requires Highlighted(pathname, MenuItems[i]) && Highlighted(pathname, MenuItems[j])
    ensures i == j
  {
  }

  /** `item.label.split(" ")[0]`. */
  function FirstWord(s: string): (w: string)
    ensures ' ' !in w && |w| <= |s|
    ensures w == s[..|w|]
    ensures |w| < |s| ==> s[|w|] == ' '
    ensures ' ' !in s ==> w == s
  {
    SplitFirstPart(s, ' ');
    Split(s, ' ')[0]
  }

  /** A word followed by a space and more text gives that word. */
  lemma FirstWordOf(a: string, b: string)
    requires ' ' !in a
    ensures FirstWord(a + [' '] + b) == a
  {
    SplitAtSeparator(a, ' ', b);
  }

  /** The mobile bar: the first four menu items, each labelled with the first
      word of its label; a pathname highlights there as in the side menu. */
  function MobileNav(): (nav: seq<MenuItem>)
    ensures |nav| == 4
    ensures forall i :: 0 <= i < 4 ==> nav[i].path == MenuItems[i].path
    ensures forall i :: 0 <= i < 4 ==> nav[i].caption == FirstWord(MenuItems[i].caption)
  {
    seq(4, i requires 0 <= i < 4 => MenuItem(FirstWord(MenuItems[i].caption), MenuItems[i].path))
  }

  /** The bar leaves the donation-history item out. */
  lemma MobileBarOmitsHistory()
    ensures forall i :: 0 <= i < |MobileNav()| ==> MobileNav()[i].path != "/donation-history"
  {
  }

  /** The four mobile labels: "Dashboard", "Blood", "Create", "Medical". */
  lemma DashboardLabel()
    ensures MobileNav()[0].caption == "Dashboard"
  {
    var a := MenuItems[0].caption;
    assert ' ' !in a;
    SplitNoSeparator(a, ' ');
  }

  lemma BloodLabel()
    ensures MobileNav()[1].caption == "Blood"
  {
    var a, b := "Blood", "Requests";
    assert ' ' !in a;
    assert MenuItems[1].caption == a + [' '] + b;
    FirstWordOf(a, b);
  }

  lemma CreateLabel()
    ensures MobileNav()[2].caption == "Create"
  {
    var a, b := "Create", "Request";
    assert ' ' !in a;
    assert MenuItems[2].caption == a + [' '] + b;
    FirstWordOf(a, b);
  }

  lemma MedicalLabel()
    ensures MobileNav()[3].caption == "Medical"
  {
    var a, b := "Medical", "Facilities";
    assert ' ' !in a;
    assert MenuItems[3].caption == a + [' '] + b;
    FirstWordOf(a, b);
  }

  class DashboardPage {
    var stats: Option<Stats>
    var recentRequests: seq<BloodRequest>
    var mobileMenuOpen: bool

    constructor ()
      ensures stats == None && recentRequests == [] && !mobileMenuOpen
    {
      stats := None;
      recentRequests := [];
      mobileMenuOpen := false;
    }

    /** `fetchStats`: a failure is only logged, so `stats` stays as it was. */
    method FetchStats(response: Option<Stats>)
      modifies this
      ensures stats == if response.Some? then response else old(stats)
      ensures recentRequests == old(recentRequests) && mobileMenuOpen == old(mobileMenuOpen)
    {
      if response.Some? {
        stats := response;
      }
    }

    /** `fetchRecentRequests`: the first five active requests of the answer,
        in the order the server sent them. */
    method FetchRecentRequests(response: Option<seq<BloodRequest>>) returns (params: seq<Param>)
      modifies this
      ensures params == RecentParams
      ensures response.Some? ==> |recentRequests| == if |response.value| < RecentCount then |response.value| else RecentCount
      ensures response.Some? ==> recentRequests == response.value[..|recentRequests|]
      ensures response.None? ==> recentRequests == old(recentRequests)
      ensures stats == old(stats) && mobileMenuOpen == old(mobileMenuOpen)
    {
      params := RecentParams;
      if response.Some? {
        var data := response.value;
        recentRequests := if |data| <= RecentCount then data else data[..RecentCount];
      }
    }

    /** The menu button. */
    method ToggleMobileMenu()
      modifies this
      ensures mobileMenuOpen == !old(mobileMenuOpen)
      ensures stats == old(stats) && recentRequests == old(recentRequests)
    {
      mobileMenuOpen := !mobileMenuOpen;
    }
  }

  /** The mount effect: both fetches; stats stay hidden when their fetch fails,
      and the recent list holds at most five requests. */
  method Mount(statsResponse: Option<Stats>, requestsResponse: Option<seq<BloodRequest>>)
    returns (cards: seq<nat>, recent: seq<BloodRequest>)
    ensures cards == [] <==> statsResponse.None?
    ensures |recent| <= RecentCount
    ensures requestsResponse.None? ==> recent == []
  {
    var page := new DashboardPage();
    page.FetchStats(statsResponse);
    var params := page.FetchRecentRequests(requestsResponse);
    cards := StatCards(page.stats);
    recent := page.recentRequests;
  }
}
