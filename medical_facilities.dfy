/** The medical-facilities page: its filters and query parameters, the
    add-facility form with its list toggles and reset, and the card's colours,
    type label and services summary. */
module MedicalFacilities {
  import opened Wrappers
  import opened Text
  import opened Domain
  import opened UrlParams
  import Documents
  import Server

  datatype FacilityFilters = FacilityFilters(city: string, facility_type: string)

  const NoFacilityFilters := FacilityFilters("", "")

  const FacilityKeys: seq<string> := ["city", "facility_type"]

  /** The parameter list `fetchFacilities` builds; there is no status. */
  function FacilityParams(f: FacilityFilters): (ps: seq<Param>)
    ensures |ps| <= 2
    ensures forall i :: 0 <= i < |ps| ==> ps[i].1 != ""
    ensures ps == [] <==> f == NoFacilityFilters
  {
    EntryIf("city", f.city) + EntryIf("facility_type", f.facility_type)
  }

  /** Each filter is sent exactly when it is set, `city` before
      `facility_type`, and nothing else is sent. */
  lemma FacilityParamsGet(f: FacilityFilters)
    ensures Get(FacilityParams(f), "city") == NonEmpty(f.city)
    ensures Get(FacilityParams(f), "facility_type") == NonEmpty(f.facility_type)
    ensures Get(FacilityParams(f), "status") == None
    ensures Ordered(FacilityParams(f), FacilityKeys)
  {
    var c := EntryIf("city", f.city);
    var t := EntryIf("facility_type", f.facility_type);
    GetAppend(c, t, "city");
    GetAppend(c, t, "facility_type");
    GetAppend(c, t, "status");
    GetEntryIf("city", f.city, "city");
    GetEntryIf("city", f.city, "facility_type");
    GetEntryIf("city", f.city, "status");
    GetEntryIf("facility_type", f.facility_type, "city");
    GetEntryIf("facility_type", f.facility_type, "facility_type");
    GetEntryIf("facility_type", f.facility_type, "status");
    assert Position(FacilityKeys, "city") == 0;
    assert Position(FacilityKeys, "facility_type") == 1;
  }

  /** The server's query is empty, so that every facility is listed (up to the
      cap), exactly when no filter is set. */
  lemma NoFiltersListAll(f: FacilityFilters)
    ensures var ps := FacilityParams(f);
            Server.FacilityQuery(Get(ps, "city"), Get(ps, "facility_type")) == map[] <==> f == NoFacilityFilters
  {
    FacilityParamsGet(f);
  }

  /** `xs.filter(s => s !== x)`. */
  function Without(xs: seq<string>, x: string): (r: seq<string>)
    ensures x !in r
    ensures forall y :: y != x ==> multiset(r)[y] == multiset(xs)[y]
    ensures |r| <= |xs|
  {
    if |xs| == 0 then []
    else
      assert xs == [xs[0]] + xs[1..];
      (if xs[0] == x then [] else [xs[0]]) + Without(xs[1..], x)
  }

  /** On one element `filter` keeps it exactly when it differs from `x`. */
  lemma WithoutSingleton(y: string, x: string)
    ensures Without([y], x) == if y == x then [] else [y]
  {
    assert [y][1..] == [];
  }

  /** `filter` works element by element, so the values it keeps stay in
      their order: filtering a concatenation filters each part. */
  lemma {:induction false} WithoutConcat(a: seq<string>, b: seq<string>, x: string)
    ensures Without(a + b, x) == Without(a, x) + Without(b, x)
    decreases |a|
  {
    if |a| == 0 {
      assert a + b == b;
    } else {
      var h: seq<string> := if a[0] == x then [] else [a[0]];
      assert (a + b)[0] == a[0];
      assert (a + b)[1..] == a[1..] + b;
      assert Without(a + b, x) == h + Without(a[1..] + b, x);
      assert Without(a, x) == h + Without(a[1..], x);
      WithoutConcat(a[1..], b, x);
      assert h + (Without(a[1..], x) + Without(b, x)) == (h + Without(a[1..], x)) + Without(b, x);
    }
  }

  /** Filtering out a value that is not there changes nothing. */
  lemma {:induction false} WithoutAbsent(xs: seq<string>, x: string)
    requires x !in xs
    ensures Without(xs, x) == xs
  {
    if |xs| > 0 {
      assert x !in xs[1..] by {
        forall i | 0 <= i < |xs| - 1 ensures xs[1..][i] != x {
          assert xs[1..][i] == xs[i + 1];
        }
      }
      WithoutAbsent(xs[1..], x);
      assert xs == [xs[0]] + xs[1..];
    }
  }

  /** Filtering a value out of a list that ends with it drops that end. */
  lemma {:induction false} WithoutAppended(xs: seq<string>, x: string)
    ensures Without(xs + [x], x) == Without(xs, x)
  {
    if |xs| == 0 {
      assert Without([x], x) == [] + Without([], x);
    } else {
      assert (xs + [x])[1..] == xs[1..] + [x];
      WithoutAppended(xs[1..], x);
    }
  }

  /** The update `toggleService` and `toggleBloodType` apply to their list:
      remove every occurrence of `x` if it is there, append it otherwise. */
  function Toggle(xs: seq<string>, x: string): (r: seq<string>)
    ensures x in r <==> x !in xs
    ensures forall y :: y != x ==> multiset(r)[y] == multiset(xs)[y]
    ensures x !in xs ==> r == xs + [x]
    ensures x in xs ==> r == Without(xs, x)
  {
    if x in xs then Without(xs, x)
    else
      assert multiset(xs + [x]) == multiset(xs) + multiset{x};
      xs + [x]
  }

  /** Toggling an absent value twice gives the list back. */
  lemma ToggleTwiceAbsent(xs: seq<string>, x: string)
    requires x !in xs
    ensures Toggle(Toggle(xs, x), x) == xs
  {
    WithoutAppended(xs, x);
    WithoutAbsent(xs, x);
  }

  /** Toggling a present value twice moves a single copy of it to the end. */
  lemma ToggleTwicePresent(xs: seq<string>, x: string)
    requires x in xs
    ensures Toggle(Toggle(xs, x), x) == Without(xs, x) + [x]
  {
  }

  /** The add-facility form. */
  datatype FacilityForm = FacilityForm(
    name: string,
    facility_type: string,
    address: string,
    city: string,
    state: string,
    phone: string,
    email: string,
    services: seq<string>,
    blood_types_available: seq<string>)

  /** The form's initial value, which a successful add restores. */
  const EmptyForm := FacilityForm("", "hospital", "", "", "", "", "", [], [])

  /** The facility types of the form's select. */
  const FacilityTypes: set<string> := {"hospital", "clinic", "blood_bank", "diagnostic_center"}

  /** The card gradients of the four facility types. */
  const HospitalGradient := "from-blue-500 to-blue-600"
  const ClinicGradient := "from-green-500 to-green-600"
  const BloodBankGradient := "from-rose-500 to-pink-600"
  const DiagnosticGradient := "from-purple-500 to-purple-600"

  /** `getFacilityColor`: a known type's gradient, the hospital's otherwise. */
  function FacilityColor(facilityType: string): (g: string)
    ensures facilityType == "hospital" ==> g == HospitalGradient
    ensures facilityType == "clinic" ==> g == ClinicGradient
    ensures facilityType == "blood_bank" ==> g == BloodBankGradient
    ensures facilityType == "diagnostic_center" ==> g == DiagnosticGradient
    ensures facilityType !in FacilityTypes ==> g == HospitalGradient
    ensures g in {HospitalGradient, ClinicGradient, BloodBankGradient, DiagnosticGradient}
  {
    match facilityType
    case "clinic" => ClinicGradient
    case "blood_bank" => BloodBankGradient
    case "diagnostic_center" => DiagnosticGradient
    case _ => HospitalGradient
  }

  /** The four types get four different gradients. */
  lemma FacilityColorsDistinct(a: string, b: string)
    requires a in FacilityTypes && b in FacilityTypes && a != b
    ensures FacilityColor(a) != FacilityColor(b)
  {
  }

  const Blue := "#3b82f6"
  const Rose := "#fb7185"
  const Green := "#10b981"

  /** The border test on a gradient: blue if it mentions blue, else rose if it
      mentions rose, else green. */
  function BorderOf(gradient: string): (c: string)
    ensures c == Blue || c == Rose || c == Green
    ensures c == Blue <==> Contains(gradient, "blue")
    ensures !Contains(gradient, "blue") ==> (c == Rose <==> Contains(gradient, "rose"))
  {
    if Contains(gradient, "blue") then Blue else if Contains(gradient, "rose") then Rose else Green
  }

  /** The card's top border. */
  function BorderColor(facilityType: string): (c: string)
    ensures c == Blue || c == Rose || c == Green
  {
    BorderOf(FacilityColor(facilityType))
  }

  /** What the border test makes of each gradient: only the hospital gradient
      mentions blue and only the blood-bank one rose, so clinic (green) and
      diagnostic-centre (purple) cards both get the green border. */
  lemma GradientBorders()
    ensures BorderOf(HospitalGradient) == Blue
    ensures BorderOf(BloodBankGradient) == Rose
    ensures BorderOf(ClinicGradient) == Green
    ensures BorderOf(DiagnosticGradient) == Green
  {
    HospitalBorder();
    BloodBankBorder();
    ClinicBorder();
    DiagnosticBorder();
  }

  lemma ClinicBorder()
    ensures !Contains(ClinicGradient, "blue") && !Contains(ClinicGradient, "rose")
  {
    NotContainsMissingChar(ClinicGradient, "blue", 0);
    NotContainsMissingChar(ClinicGradient, "rose", 2);
  }

  lemma DiagnosticBorder()
    ensures !Contains(DiagnosticGradient, "blue") && !Contains(DiagnosticGradient, "rose")
  {
    NotContainsMissingChar(DiagnosticGradient, "blue", 0);
    NotContainsMissingChar(DiagnosticGradient, "rose", 2);
  }

  lemma HospitalBorder()
    ensures Contains(HospitalGradient, "blue")
  {
    assert HospitalGradient == "from-" + "blue" + "-500 to-blue-600";
    ContainsConcat("from-", "blue", "-500 to-blue-600");
  }

  lemma BloodBankBorder()
    ensures !Contains(BloodBankGradient, "blue") && Contains(BloodBankGradient, "rose")
  {
    NotContainsMissingChar(BloodBankGradient, "blue", 0);
    BloodBankRose();
  }

  lemma BloodBankRose()
    ensures Contains(BloodBankGradient, "rose")
  {
    assert BloodBankGradient == "from-" + "rose" + "-500 to-pink-600";
    ContainsConcat("from-", "rose", "-500 to-pink-600");
  }

  /** The border of each facility type; an unknown type gets the hospital's. */
  lemma BorderColors(facilityType: string)
    ensures facilityType == "blood_bank" ==> BorderColor(facilityType) == Rose
    ensures facilityType == "clinic" || facilityType == "diagnostic_center" ==> BorderColor(facilityType) == Green
    ensures facilityType !in {"blood_bank", "clinic", "diagnostic_center"} ==> BorderColor(facilityType) == Blue
  {
    GradientBorders();
  }

  /** The services block of a card: hidden for an empty list; otherwise the
      first three services and, when there are more, a "+n more" chip. */
  datatype ServicesView = NoServices | ServiceChips(shown: seq<string>, more: Option<string>)

  function ServicesSummary(services: seq<string>): (v: ServicesView)
    ensures v.NoServices? <==> |services| == 0
    ensures v.ServiceChips? ==> |v.shown| <= 3 && |v.shown| <= |services| && v.shown == services[..|v.shown|]
    ensures v.ServiceChips? ==> (|v.shown| == 3 || v.shown == services)
    ensures v.ServiceChips? ==> (v.more.Some? <==> |services| > 3)
    ensures v.ServiceChips? && v.more.Some? ==> v.more.value == "+" + DecimalString(|services| - 3) + " more"
  {
    if |services| == 0 then NoServices
    else
      var shown := if |services| <= 3 then services else services[..3];
      ServiceChips(shown, if |services| > 3 then Some("+" + DecimalString(|services| - 3) + " more") else None)
  }

  /** The chips and the "+n more" count together account for every service. */
  lemma ServicesAccounted(services: seq<string>)
    requires |services| > 3
    ensures var v := ServicesSummary(services);
            var n := |v.more.value| - |" more"|;
            |v.shown| + ParseDecimal(v.more.value[1..n]) == |services|
  {
    var v := ServicesSummary(services);
    var d := DecimalString(|services| - 3);
    assert v.more.value[1..|v.more.value| - |" more"|] == d;
    DecimalRoundTrip(|services| - 3);
  }

  /** `facility_type.replace('_', ' ')`: only the first underscore becomes a
      space. */
  function TypeLabel(facilityType: string): (r: string)
    ensures |r| == |facilityType|
    ensures '_' !in facilityType ==> r == facilityType
  {
    ReplaceFirst(facilityType, '_', ' ')
  }

  /** Only the first underscore becomes a space; later ones stay. */
  lemma LabelFirstUnderscore(a: string, b: string)
    requires '_' !in a
    ensures TypeLabel(a + ['_'] + b) == a + [' '] + b
  {
    ReplaceFirstAt(a, '_', ' ', b);
  }

  /** The label of the blood-bank type. */
  lemma BloodBankLabel(t: string)
    requires t == "blood_bank"
    ensures TypeLabel(t) == "blood bank"
  {
    var a, b := "blood", "bank";
    assert t == a + ['_'] + b;
    LabelFirstUnderscore(a, b);
    assert a + [' '] + b == "blood bank";
  }

  /** The page state. */
  class MedicalFacilitiesPage {
    var filters: FacilityFilters
    var facilities: seq<Facility>
    var loading: bool
    var showAddDialog: bool
    var newFacility: FacilityForm

    constructor ()
      ensures filters == NoFacilityFilters && facilities == [] && loading
      ensures !showAddDialog && newFacility == EmptyForm
    {
      filters := NoFacilityFilters;
      facilities := [];
      loading := true;
      showAddDialog := false;
      newFacility := EmptyForm;
    }

    /** `fetchFacilities`: parameters appended one by one; the list becomes
        the response on success and is kept on failure. */
    method FetchFacilities(response: Option<seq<Facility>>) returns (params: seq<Param>)
      modifies this
      ensures params == FacilityParams(filters)
      ensures filters == old(filters) && showAddDialog == old(showAddDialog) && newFacility == old(newFacility)
      ensures facilities == if response.Some? then response.value else old(facilities)
      ensures !loading
    {
      loading := true;
      params := [];
      if filters.city != "" {
        params := params + [("city", filters.city)];
      }
      if filters.facility_type != "" {
        params := params + [("facility_type", filters.facility_type)];
      }
      if response.Some? {
        facilities := response.value;
      }
      loading := false;
    }

    /** `handleAddFacility`: after a successful POST the dialog closes, the
        form is reset and the list refetched; after a failed one nothing
        changes. `refetch` holds the parameters of the refetch, if any. */
    method AddFacility(posted: bool, response: Option<seq<Facility>>) returns (refetch: Option<seq<Param>>)
      modifies this
      ensures !posted ==> refetch == None && filters == old(filters) && facilities == old(facilities) &&
                          loading == old(loading) && showAddDialog == old(showAddDialog) && newFacility == old(newFacility)
      ensures posted ==> refetch == Some(FacilityParams(filters)) && !showAddDialog && newFacility == EmptyForm
      ensures posted ==> filters == old(filters) && !loading &&
                         facilities == if response.Some? then response.value else old(facilities)
    {
      refetch := None;
      if posted {
        showAddDialog := false;
        newFacility := EmptyForm;
        var params := FetchFacilities(response);
        refetch := Some(params);
      }
    }

    /** `toggleService`: only the services list changes. */
    method ToggleService(service: string)
      modifies this
      ensures newFacility == old(newFacility).(services := Toggle(old(newFacility).services, service))
      ensures filters == old(filters) && facilities == old(facilities) && loading == old(loading) && showAddDialog == old(showAddDialog)
    {
      newFacility := newFacility.(services := Toggle(newFacility.services, service));
    }

    /** `toggleBloodType`: only the blood-types list changes. */
    method ToggleBloodType(bloodType: string)
      modifies this
      ensures newFacility == old(newFacility).(blood_types_available := Toggle(old(newFacility).blood_types_available, bloodType))
      ensures filters == old(filters) && facilities == old(facilities) && loading == old(loading) && showAddDialog == old(showAddDialog)
    {
      newFacility := newFacility.(blood_types_available := Toggle(newFacility.blood_types_available, bloodType));
    }
  }

  /** Ticking a service that is not yet chosen and unticking it again leaves
      the form as it was. */
  method TickUntick(form: FacilityForm, service: string) returns (after: FacilityForm)
    requires service !in form.services
    ensures after == form
  {
    var page := new MedicalFacilitiesPage();
    page.newFacility := form;
    page.ToggleService(service);
    page.ToggleService(service);
    ToggleTwiceAbsent(form.services, service);
    after := page.newFacility;
  }
}
