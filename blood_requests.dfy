/** The blood-requests page: its three filters, the query parameters it sends,
    the urgency colours and labels, and the relative "posted" time. */
module BloodRequests {
  import opened Wrappers
  import opened Text
  import opened Domain
  import opened UrlParams
  import Documents
  import Server

  /** The filter state; the empty string stands for "all". */
  datatype Filters = Filters(blood_type: string, city: string, urgency: string)

  const NoFilters := Filters("", "", "")

  /** The parameters the page may send, in the order it appends them. */
  const RequestKeys: seq<string> := ["status", "blood_type", "city", "urgency"]

  /** The parameter list `fetchRequests` builds from the filters. */
  function RequestParams(f: Filters): (ps: seq<Param>)
    ensures |ps| >= 1 && ps[0] == ("status", "active")
    ensures forall i :: 0 <= i < |ps| ==> ps[i].1 != ""
  {
    [("status", "active")] + EntryIf("blood_type", f.blood_type) + EntryIf("city", f.city) + EntryIf("urgency", f.urgency)
  }

  /** Each filter is sent exactly when it is set, with its value, and the
      status is always "active". */
  lemma RequestParamsGet(f: Filters)
    ensures Get(RequestParams(f), "status") == Some("active")
    ensures Get(RequestParams(f), "blood_type") == NonEmpty(f.blood_type)
    ensures Get(RequestParams(f), "city") == NonEmpty(f.city)
    ensures Get(RequestParams(f), "urgency") == NonEmpty(f.urgency)
  {
    var h: seq<Param> := [("status", "active")];
    var b := EntryIf("blood_type", f.blood_type);
    var c := EntryIf("city", f.city);
    var u := EntryIf("urgency", f.urgency);
    assert RequestParams(f) == h + b + c + u;
    LookupFour(h, b, c, u, "status");
    LookupFour(h, b, c, u, "blood_type");
    LookupFour(h, b, c, u, "city");
    LookupFour(h, b, c, u, "urgency");
    GetEntryIf("blood_type", f.blood_type, "status");
    GetEntryIf("city", f.city, "status");
    GetEntryIf("urgency", f.urgency, "status");
    GetEntryIf("blood_type", f.blood_type, "blood_type");
    GetEntryIf("city", f.city, "blood_type");
    GetEntryIf("urgency", f.urgency, "blood_type");
    GetEntryIf("blood_type", f.blood_type, "city");
    GetEntryIf("city", f.city, "city");
    GetEntryIf("urgency", f.urgency, "city");
    GetEntryIf("blood_type", f.blood_type, "urgency");
    GetEntryIf("city", f.city, "urgency");
    GetEntryIf("urgency", f.urgency, "urgency");
  }

  /** The parameters come in the order `status`, `blood_type`, `city`,
      `urgency`, each at most once. */
  lemma RequestParamsOrdered(f: Filters)
    ensures Ordered(RequestParams(f), RequestKeys)
  {
    var ps := RequestParams(f);
    assert Position(RequestKeys, "status") == 0;
    assert Position(RequestKeys, "blood_type") == 1;
    assert Position(RequestKeys, "city") == 2;
    assert Position(RequestKeys, "urgency") == 3;
    assert forall i :: 0 <= i < |ps| ==> ps[i].0 in {"status", "blood_type", "city", "urgency"};
    forall i, j | 0 <= i < j < |ps|
      ensures Position(RequestKeys, ps[i].0) < Position(RequestKeys, ps[j].0)
    {
    }
  }

  /** The server receives the page's filters unchanged: the query it builds
      from the parameters asks for active requests and holds exactly the
      filters that are set, with their values. */
  lemma FiltersReachServer(f: Filters)
    ensures var ps := RequestParams(f);
            var q := Server.BloodRequestQuery(Get(ps, "blood_type"), Get(ps, "city"), Get(ps, "urgency"), Get(ps, "status"));
            && q["status"] == Documents.Str("active")
            && ("blood_type" in q <==> f.blood_type != "")
            && ("city" in q <==> f.city != "")
            && ("urgency" in q <==> f.urgency != "")
            && (f.blood_type != "" ==> q["blood_type"] == Documents.Str(f.blood_type))
            && (f.city != "" ==> q["city"] == Documents.Str(f.city))
            && (f.urgency != "" ==> q["urgency"] == Documents.Str(f.urgency))
  {
    RequestParamsGet(f);
  }

  /** With every filter cleared only `status=active` is sent. */
  lemma ClearedParams()
    ensures RequestParams(NoFilters) == [("status", "active")]
  {
  }

  /** The badge classes of the four urgency levels. */
  const UrgencyClasses: map<string, string> := map[
    "low" := "bg-green-100 text-green-700 border-green-300",
    "medium" := "bg-yellow-100 text-yellow-700 border-yellow-300",
    "high" := "bg-orange-100 text-orange-700 border-orange-300",
    "critical" := "bg-red-100 text-red-700 border-red-300"]

  /** `getUrgencyColor`: a known level's classes, medium's for anything else. */
  function UrgencyColor(urgency: string): (c: string)
    ensures urgency in UrgencyClasses ==> c == UrgencyClasses[urgency]
    ensures urgency !in UrgencyClasses ==> c == UrgencyClasses["medium"]
    ensures c in UrgencyClasses.Values
  {
    if urgency in UrgencyClasses && UrgencyClasses[urgency] != "" then UrgencyClasses[urgency]
    else UrgencyClasses["medium"]
  }

  /** The four levels get four different badges. */
  lemma UrgencyColorsDistinct(a: string, b: string)
    requires a in UrgencyClasses && b in UrgencyClasses && a != b
    ensures UrgencyColor(a) != UrgencyColor(b)
  {
  }

  /** An unknown level looks exactly like a medium one. */
  lemma UnknownLooksMedium(urgency: string)
    requires urgency !in UrgencyClasses
    ensures UrgencyColor(urgency) == UrgencyColor("medium")
  {
  }

  /** `s.charAt(0).toUpperCase() + s.slice(1)`. */
  function Capitalize(s: string): (r: string)
    ensures |r| == |s|
    ensures |s| > 0 ==> r[0] == UpperChar(s[0]) && r[1..] == s[1..]
  {
    if |s| == 0 then "" else [UpperChar(s[0])] + s[1..]
  }

  /** The option labels of the urgency select. */
  lemma UrgencyLabels()
    ensures Capitalize("low") == "Low" && Capitalize("medium") == "Medium"
    ensures Capitalize("high") == "High" && Capitalize("critical") == "Critical"
  {
  }

  /** Capitalising twice is capitalising once. */
  lemma CapitalizeIdempotent(s: string)
    ensures Capitalize(Capitalize(s)) == Capitalize(s)
  {
  }

  /** The option label and the card badge (`urgency.toUpperCase()`) differ only
      in case: upper-casing the label gives the badge. */
  lemma LabelMatchesBadge(s: string)
    ensures Upper(Capitalize(s)) == Upper(s)
  {
    if |s| > 0 {
      var r := Capitalize(s);
      assert Upper(r)[0] == UpperChar(UpperChar(s[0])) == UpperChar(s[0]);
      forall i | 1 <= i < |s| ensures Upper(r)[i] == Upper(s)[i] {
        assert r[i] == r[1..][i - 1] == s[1..][i - 1] == s[i];
      }
    }
  }

  const HourMs: int := 1000 * 60 * 60
  const DayMs: int := 24 * HourMs

  /** Whole hours of a millisecond difference divided into whole days are the
      whole days of the difference. */
  lemma FloorHoursToDays(diffMs: int)
    ensures (diffMs / HourMs) / 24 == diffMs / DayMs
  {
    var h := diffMs / HourMs;
    var d := h / 24;
    assert diffMs == h * HourMs + diffMs % HourMs;
    assert h == d * 24 + h % 24;
    assert diffMs == d * DayMs + ((h % 24) * HourMs + diffMs % HourMs);
    assert 0 <= (h % 24) * HourMs + diffMs % HourMs < DayMs;
  }

  /** `formatDate`, given `now - date` in milliseconds. `Math.floor` of the
      quotient is Dafny's division, which rounds towards minus infinity for a
      positive divisor. */
  function FormatDate(diffMs: int): (r: string)
    ensures r == "Just now" <==> diffMs < HourMs
    ensures HourMs <= diffMs < DayMs ==> r == DecimalString(diffMs / HourMs) + " hours ago"
    ensures diffMs >= DayMs ==> (r == "1 day ago" <==> diffMs < 2 * DayMs)
    ensures diffMs >= 2 * DayMs ==> r == DecimalString(diffMs / DayMs) + " days ago"
  {
    var diffHours := diffMs / HourMs;
    var diffDays := diffHours / 24;
    FloorHoursToDays(diffMs);
    if diffHours < 1 then "Just now"
    else if diffHours < 24 then DecimalString(diffHours) + " hours ago"
    else if diffDays == 1 then "1 day ago"
    else
      assert diffDays >= 2 ==> DecimalString(diffDays) != "1";
      DecimalString(diffDays) + " days ago"
  }

  /** The hour count can be read back from the text. */
  lemma HoursReadBack(diffMs: int)
    requires HourMs <= diffMs < DayMs
    ensures var r := FormatDate(diffMs);
            var n := |r| - |" hours ago"|;
            n >= 1 && ParseDecimal(r[..n]) == diffMs / HourMs
  {
    var r := FormatDate(diffMs);
    var s := DecimalString(diffMs / HourMs);
    assert r[..|s|] == s;
    DecimalRoundTrip(diffMs / HourMs);
  }

  /** The page state. */
  class BloodRequestsPage {
    var filters: Filters
    var requests: seq<BloodRequest>
    var loading: bool

    constructor ()
      ensures filters == NoFilters && requests == [] && loading
    {
      filters := NoFilters;
      requests := [];
      loading := true;
    }

    /** `fetchRequests`: the parameters are appended one by one; on success
        the list is the response, on failure it is kept (and a toast shown);
        `loading` ends false either way. */
    method FetchRequests(response: Option<seq<BloodRequest>>) returns (params: seq<Param>)
      modifies this
      ensures params == RequestParams(filters)
      ensures filters == old(filters)
      ensures requests == if response.Some? then response.value else old(requests)
      ensures !loading
    {
      loading := true;
      params := [];
      params := params + [("status", "active")];
      if filters.blood_type != "" {
        params := params + [("blood_type", filters.blood_type)];
      }
      assert params == [("status", "active")] + EntryIf("blood_type", filters.blood_type);
      if filters.city != "" {
        params := params + [("city", filters.city)];
      }
      assert params == [("status", "active")] + EntryIf("blood_type", filters.blood_type) + EntryIf("city", filters.city);
      if filters.urgency != "" {
        params := params + [("urgency", filters.urgency)];
      }
      if response.Some? {
        requests := response.value;
      }
      loading := false;
    }

    /** The "Clear Filters" button. */
    method ClearFilters()
      modifies this
      ensures filters == NoFilters
      ensures requests == old(requests) && loading == old(loading)
    {
      filters := NoFilters;
    }
  }

  /** Clearing the filters refetches with `status=active` alone. */
  method ClearThenFetch(f: Filters, response: Option<seq<BloodRequest>>) returns (params: seq<Param>)
    ensures params == [("status", "active")]
  {
    var page := new BloodRequestsPage();
    page.filters := f;
    page.ClearFilters();
    params := page.FetchRequests(response);
    ClearedParams();
  }
}
