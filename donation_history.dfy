/** The donation-history page: donor-only gating, the totals and the
    lives-saved figure, the pluralised wording, and the add-donation form with
    its defaults and reset. */
module DonationHistory {
  import opened Wrappers
  import opened Text
  import opened Domain

  /** `history.reduce((total, d) => total + d.units_donated, 0)`, folding from
      the left. */
  function TotalUnits(history: seq<Donation>): (t: int)
    ensures |history| == 0 ==> t == 0
    ensures (forall i :: 0 <= i < |history| ==> history[i].units_donated >= 0) ==> t >= 0
  {
    if |history| == 0 then 0
    else TotalUnits(history[..|history| - 1]) + history[|history| - 1].units_donated
  }

  /** The total of two histories put together is the sum of their totals. */
  lemma {:induction false} TotalUnitsAppend(a: seq<Donation>, b: seq<Donation>)
    ensures TotalUnits(a + b) == TotalUnits(a) + TotalUnits(b)
    decreases |b|
  {
    if |b| == 0 {
      assert a + b == a;
    } else {
      assert (a + b)[..|a + b| - 1] == a + b[..|b| - 1];
      TotalUnitsAppend(a, b[..|b| - 1]);
    }
  }

  /** When every donation is at least one unit, the total is at least the
      number of donations. */
  lemma {:induction false} TotalAtLeastCount(history: seq<Donation>)
    requires forall i :: 0 <= i < |history| ==> history[i].units_donated >= 1
    ensures TotalUnits(history) >= |history|
  {
    if |history| > 0 {
      var init := history[..|history| - 1];
      assert forall i :: 0 <= i < |init| ==> init[i] == history[i];
      TotalAtLeastCount(init);
    }
  }

  /** Recording one more donation raises the total by its units. */
  lemma RecordedDonation(history: seq<Donation>, d: Donation)
    ensures TotalUnits(history + [d]) == TotalUnits(history) + d.units_donated
  {
    TotalUnitsAppend(history, [d]);
    assert TotalUnits([d]) == TotalUnits([]) + d.units_donated;
  }

  /** The "Lives Saved" card: three lives per unit. */
  function LivesSaved(history: seq<Donation>): (n: int)
    ensures n % 3 == 0
  {
    TotalUnits(history) * 3
  }

  /** An empty history saves no lives, and each recorded donation adds three
      lives per unit. */
  lemma LivesSavedRecorded(history: seq<Donation>, d: Donation)
    ensures LivesSaved([]) == 0
    ensures LivesSaved(history + [d]) == LivesSaved(history) + 3 * d.units_donated
  {
    RecordedDonation(history, d);
  }

  /** At least three lives per recorded donation when each is a unit or more. */
  lemma LivesSavedBound(history: seq<Donation>)
    requires forall i :: 0 <= i < |history| ==> history[i].units_donated >= 1
    ensures LivesSaved(history) >= 3 * |history|
  {
    TotalAtLeastCount(history);
  }

  /** "unit" for exactly one unit, "units" otherwise (zero included). */
  function UnitWord(units: int): (w: string)
    ensures w == "unit" <==> units == 1
    ensures w == "unit" || w == "units"
  {
    if units == 1 then "unit" else "units"
  }

  /** The card heading "Donated n unit(s)". */
  function CardHeading(d: Donation): string
  {
    "Donated " + IntString(d.units_donated) + " " + UnitWord(d.units_donated)
  }

  /** "donation" for a single donation, "donations" otherwise. */
  function DonationWord(count: nat): (w: string)
    ensures w == "donation" <==> count == 1
    ensures w == "donation" || w == "donations"
  {
    "donation" + if count != 1 then "s" else ""
  }

  /** The thank-you paragraph for `count` donations, with the count's own word;
      the line break between its two sentences renders as one space. */
  function ThankYou(count: nat): string
  {
    "Your " + DecimalString(count) + " " + DonationWord(count) +
    " have made a real difference in saving lives. Keep up the amazing work!"
  }

  /** The three stat cards. */
  datatype Stats = Stats(donations: nat, units: int, lives: int)

  /** The list area under the stats. */
  datatype ListArea = Spinner | NoDonations | Cards(headings: seq<string>)

  /** What the page renders: the donor-only notice, or the stats, the list
      area and, for a non-empty history, the thank-you card. */
  datatype HistoryView =
    | DonorOnly
    | DonorPage(stats: Stats, list: ListArea, thankYou: Option<string>)

  predicate IsDonor(user: Option<User>)
  {
    user.Some? && user.value.role == "donor"
  }

  function View(user: Option<User>, loading: bool, history: seq<Donation>): (v: HistoryView)
    ensures v.DonorOnly? <==> !IsDonor(user)
    ensures v.DonorPage? ==> v.stats == Stats(|history|, TotalUnits(history), LivesSaved(history))
    ensures v.DonorPage? ==> (v.list == Spinner <==> loading)
    ensures v.DonorPage? && !loading ==> (v.list == NoDonations <==> |history| == 0)
    ensures v.DonorPage? && v.list.Cards? ==>
              |v.list.headings| == |history| &&
              forall i :: 0 <= i < |history| ==> v.list.headings[i] == CardHeading(history[i])
    ensures v.DonorPage? ==> (v.thankYou.Some? <==> |history| > 0)
    ensures v.DonorPage? && v.thankYou.Some? ==>
              v.thankYou.value == ThankYou(|history|)
  {
    if !IsDonor(user) then DonorOnly
    else
      var list :=
        if loading then Spinner
        else if |history| == 0 then NoDonations
        else Cards(seq(|history|, i requires 0 <= i < |history| => CardHeading(history[i])));
      var thanks :=
        if |history| > 0 then
          Some(ThankYou(|history|))
        else None;
      DonorPage(Stats(|history|, TotalUnits(history), LivesSaved(history)), list, thanks)
  }

  /** The add-donation form. */
  datatype DonationForm = DonationForm(blood_type: string, units_donated: int, hospital_name: string, city: string)

  /** The form's initial value, which a successful add restores: the user's
      blood type when it is truthy, one unit, and empty fields. */
  function DefaultForm(user: Option<User>): (f: DonationForm)
    ensures f.units_donated == 1 && f.hospital_name == "" && f.city == ""
    ensures user.Some? && Truthy(user.value.blood_type) ==> f.blood_type == user.value.blood_type.value
    ensures !(user.Some? && Truthy(user.value.blood_type)) ==> f.blood_type == ""
  {
    var bloodType := if user.Some? && Truthy(user.value.blood_type) then user.value.blood_type.value else "";
    DonationForm(bloodType, 1, "", "")
  }

  class DonationHistoryPage {
    /** The signed-in user from the session context. */
    var user: Option<User>
    var history: seq<Donation>
    var loading: bool
    var showAddDialog: bool
    var newDonation: DonationForm

    constructor (u: Option<User>)
      ensures user == u && history == [] && loading && !showAddDialog
      ensures newDonation == DefaultForm(u)
    {
      user := u;
      history := [];
      loading := true;
      showAddDialog := false;
      newDonation := DefaultForm(u);
    }

    function Screen(): HistoryView
      reads this
    {
      View(user, loading, history)
    }

    /** `fetchHistory`: the list becomes the response on success and is kept
        on failure; `loading` ends false. */
    method FetchHistory(response: Option<seq<Donation>>)
      modifies this
      ensures history == if response.Some? then response.value else old(history)
      ensures !loading
      ensures user == old(user) && showAddDialog == old(showAddDialog) && newDonation == old(newDonation)
    {
      loading := true;
      if response.Some? {
        history := response.value;
      }
      loading := false;
    }

    /** The effect on `[user]`: a donor's history is fetched; for anyone else
        loading just ends and nothing is fetched. */
    method UserEffect(response: Option<seq<Donation>>) returns (fetched: bool)
      modifies this
      ensures fetched <==> IsDonor(user)
      ensures !loading
      ensures history == if fetched && response.Some? then response.value else old(history)
      ensures user == old(user) && showAddDialog == old(showAddDialog) && newDonation == old(newDonation)
    {
      if IsDonor(user) {
        FetchHistory(response);
        fetched := true;
      } else {
        loading := false;
        fetched := false;
      }
    }

    /** `handleAddDonation`: after a successful POST the dialog closes, the
        form goes back to its defaults and the history is refetched; after a
        failed one nothing changes. */
    method AddDonation(posted: bool, response: Option<seq<Donation>>)
      modifies this
      ensures user == old(user)
      ensures !posted ==> history == old(history) && loading == old(loading) &&
                          showAddDialog == old(showAddDialog) && newDonation == old(newDonation)
      ensures posted ==> !showAddDialog && newDonation == DefaultForm(user) && !loading
      ensures posted ==> history == if response.Some? then response.value else old(history)
    {
      if posted {
        showAddDialog := false;
        newDonation := DefaultForm(user);
        FetchHistory(response);
      }
    }
  }

  /** A user who is not a donor never triggers a fetch and sees only the
      donor-only notice. */
  method NonDonorSeesNotice(u: Option<User>, response: Option<seq<Donation>>)
    returns (fetched: bool, screen: HistoryView)
    requires !IsDonor(u)
    ensures !fetched && screen == DonorOnly
  {
    var page := new DonationHistoryPage(u);
    fetched := page.UserEffect(response);
    screen := page.Screen();
  }

  /** After a recorded donation the form is back in its initial state. */
  method AddResetsForm(u: Option<User>, edited: DonationForm, response: Option<seq<Donation>>)
    returns (before: DonationForm, after: DonationForm)
    ensures after == before
  {
    var page := new DonationHistoryPage(u);
    before := page.newDonation;
    page.newDonation := edited;
    page.AddDonation(true, response);
    after := page.newDonation;
  }
}
