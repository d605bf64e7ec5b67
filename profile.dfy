/** The profile page: the avatar initials, the role badge, the availability
    switch and the location line. */
module Profile {
  import opened Wrappers
  import opened Text
  import opened Domain

  /** `parts.map(n => n[0]).join('')`: the first character of every part; an
      empty part gives `undefined`, which `join` writes as nothing. */
  function FirstChars(parts: seq<string>): (r: string)
    ensures |r| == NonEmptyCount(parts) <= |parts|
    ensures (forall i :: 0 <= i < |parts| ==> |parts[i]| > 0) ==>
              |r| == |parts| && forall i :: 0 <= i < |parts| ==> r[i] == parts[i][0]
  {
    if |parts| == 0 then ""
    else
      var rest := FirstChars(parts[1..]);
      if |parts[0]| > 0 then
        assert forall i :: 1 <= i < |parts| ==> parts[1..][i - 1] == parts[i];
        [parts[0][0]] + rest
      else rest
  }

  /** The number of non-empty parts: a leading, trailing or doubled space
      gives an empty part, which contributes no initial. */
  function NonEmptyCount(parts: seq<string>): (n: nat)
    ensures n <= |parts|
    ensures (forall i :: 0 <= i < |parts| ==> |parts[i]| > 0) ==> n == |parts|
  {
    if |parts| == 0 then 0
    else (if |parts[0]| > 0 then 1 else 0) + NonEmptyCount(parts[1..])
  }

  /** `getInitials`: split on spaces, first characters, upper-cased, at most
      two of them. */
  function Initials(name: string): (r: string)
    ensures |r| <= 2
    ensures forall i :: 0 <= i < |r| ==> !IsLower(r[i])
  {
    var s := Upper(FirstChars(Split(name, ' ')));
    if |s| <= 2 then s else s[..2]
  }

  /** Upper-casing before or after cutting to two characters is the same. */
  lemma InitialsCutFirst(name: string)
    ensures var f := FirstChars(Split(name, ' '));
            Initials(name) == Upper(if |f| <= 2 then f else f[..2])
  {
    var f := FirstChars(Split(name, ' '));
    if |f| > 2 {
      UpperPrefix(f, 2);
    }
  }

  /** A one-word name gives its first letter. */
  lemma OneWordInitial(w: string)
    requires |w| > 0 && ' ' !in w
    ensures Initials(w) == [UpperChar(w[0])]
  {
    SplitNoSeparator(w, ' ');
    assert FirstChars([w]) == [w[0]] + FirstChars([]);
  }

  /** The fallback name "User" gives "U". */
  lemma DefaultNameInitial()
    ensures Initials("User") == "U"
  {
    OneWordInitial("User");
  }

  /** A first and a last name give both initials, upper-cased. */
  lemma TwoWordInitials(first: string, last: string)
    requires |first| > 0 && |last| > 0 && ' ' !in first && ' ' !in last
    ensures Initials(first + " " + last) == [UpperChar(first[0]), UpperChar(last[0])]
  {
    SplitAtSeparator(first, ' ', last);
    SplitNoSeparator(last, ' ');
    assert first + " " + last == first + [' '] + last;
    var parts := [first] + [last];
    assert parts[1..] == [last];
    assert FirstChars(parts) == [first[0]] + FirstChars([last]);
    assert FirstChars([last]) == [last[0]] + FirstChars([]);
  }

  /** The first characters of a list starting with `p`. */
  lemma FirstCharsCons(p: string, rest: seq<string>)
    ensures FirstChars([p] + rest) == (if |p| > 0 then [p[0]] else "") + FirstChars(rest)
  {
    assert ([p] + rest)[1..] == rest;
  }

  /** A name whose first two parts are non-empty gives their first letters. */
  lemma {:induction false} InitialsOfParts(name: string, p: string, q: string, later: seq<string>)
    requires |p| > 0 && |q| > 0
    requires Split(name, ' ') == [p] + ([q] + later)
    ensures Initials(name) == [UpperChar(p[0]), UpperChar(q[0])]
  {
    var f := FirstChars(Split(name, ' '));
    FirstTwoChars(p, q, later);
    UpperPrefix(f, 2);
  }

  /** The first characters of two non-empty leading parts come first. */
  lemma FirstTwoChars(p: string, q: string, later: seq<string>)
    requires |p| > 0 && |q| > 0
    ensures var f := FirstChars([p] + ([q] + later));
            |f| >= 2 && f[..2] == [p[0], q[0]]
  {
    FirstCharsCons(p, [q] + later);
    FirstCharsCons(q, later);
    var f := FirstChars([p] + ([q] + later));
    assert f == [p[0]] + ([q[0]] + FirstChars(later));
  }

  /** With three or more words only the first two count. */
  lemma ThirdWordDropped(first: string, second: string, rest: string)
    requires |first| > 0 && |second| > 0 && ' ' !in first && ' ' !in second
    ensures Initials(first + " " + second + " " + rest) == [UpperChar(first[0]), UpperChar(second[0])]
  {
    var name := first + " " + second + " " + rest;
    var tail := second + [' '] + rest;
    assert name == first + [' '] + tail;
    SplitAtSeparator(first, ' ', tail);
    SplitAtSeparator(second, ' ', rest);
    InitialsOfParts(name, first, second, Split(rest, ' '));
  }

  /** The name the avatar uses: `user?.full_name || "User"`. */
  function AvatarName(user: Option<User>): (n: string)
    ensures n != ""
    ensures user.Some? && user.value.full_name != "" ==> n == user.value.full_name
  {
    if user.Some? && user.value.full_name != "" then user.value.full_name else "User"
  }

  /** Without a name the avatar shows "U". */
  lemma NamelessAvatar(user: Option<User>)
    requires user.None? || user.value.full_name == ""
    ensures Initials(AvatarName(user)) == "U"
  {
    DefaultNameInitial();
  }

  datatype Badge = Badge(caption: string, color: string)

  const Roles: set<string> := {"donor", "beneficiary", "medical_facility", "admin"}

  /** `getRoleBadge(user?.role)`: each known role its badge, the beneficiary
      badge for an unknown or missing role. */
  function RoleBadge(role: Option<string>): (b: Badge)
    ensures role == Some("donor") ==> b == Badge("Blood Donor", "bg-rose-100 text-rose-700")
    ensures role == Some("beneficiary") ==> b == Badge("Beneficiary", "bg-blue-100 text-blue-700")
    ensures role == Some("medical_facility") ==> b == Badge("Medical Facility", "bg-green-100 text-green-700")
    ensures role == Some("admin") ==> b == Badge("Administrator", "bg-purple-100 text-purple-700")
    ensures role.None? || role.value !in Roles ==> b == Badge("Beneficiary", "bg-blue-100 text-blue-700")
  {
    match role
    case Some("donor") => Badge("Blood Donor", "bg-rose-100 text-rose-700")
    case Some("medical_facility") => Badge("Medical Facility", "bg-green-100 text-green-700")
    case Some("admin") => Badge("Administrator", "bg-purple-100 text-purple-700")
    case _ => Badge("Beneficiary", "bg-blue-100 text-blue-700")
  }

  /** The four roles have four different badges. */
  lemma RoleBadgesDistinct(a: string, b: string)
    requires a in Roles && b in Roles && a != b
    ensures RoleBadge(Some(a)).caption != RoleBadge(Some(b)).caption
    ensures RoleBadge(Some(a)).color != RoleBadge(Some(b)).color
  {
  }

  /** `user?.available_to_donate ?? true`. */
  function InitialAvailability(user: Option<User>): (a: bool)
    ensures !a ==> user.Some? && user.value.available_to_donate == Some(false)
    ensures user.Some? && user.value.available_to_donate.Some? ==> a == user.value.available_to_donate.value
  {
    match user
    case None => true
    case Some(u) => u.available_to_donate.GetOr(true)
  }

  const NowUnavailable := "You're now marked as unavailable for donation"
  const NowAvailable := "You're now available for donation requests!"

  /** The location line: city and state, whichever are set, joined with
      ", "; no line when neither is set. */
  function LocationLine(user: Option<User>): (line: Option<string>)
    ensures line.Some? <==> user.Some? && (Truthy(user.value.city) || Truthy(user.value.state))
    ensures line.Some? && Truthy(user.value.city) && Truthy(user.value.state) ==>
              line.value == user.value.city.value + ", " + user.value.state.value
    ensures line.Some? && Truthy(user.value.city) && !Truthy(user.value.state) ==> line.value == user.value.city.value
    ensures line.Some? && !Truthy(user.value.city) && Truthy(user.value.state) ==> line.value == user.value.state.value
  {
    if user.None? || !(Truthy(user.value.city) || Truthy(user.value.state)) then None
    else
      var u := user.value;
      var present := (if Truthy(u.city) then [u.city.value] else []) + (if Truthy(u.state) then [u.state.value] else []);
      assert |present| == 2 ==> Join(present, ", ") == present[0] + ", " + Join(present[1..], ", ");
      Some(Join(present, ", "))
  }

  class ProfilePage {
    const user: Option<User>
    var availableToDonate: bool

    constructor (u: Option<User>)
      ensures user == u && availableToDonate == InitialAvailability(u)
    {
      user := u;
      availableToDonate := InitialAvailability(u);
    }

    /** `handleAvailabilityToggle`: the switch flips and the message is chosen
        from its old value; nothing is sent to the backend. */
    method ToggleAvailability() returns (message: string)
      modifies this
      ensures availableToDonate == !old(availableToDonate)
      ensures message == if old(availableToDonate) then NowUnavailable else NowAvailable
    {
      message := if availableToDonate then NowUnavailable else NowAvailable;
      availableToDonate := !availableToDonate;
    }
  }

  /** Flipping the switch twice restores it, and the two messages differ. */
  method ToggleTwice(u: Option<User>) returns (first: string, second: string, restored: bool)
    ensures restored && first != second
    ensures first == if InitialAvailability(u) then NowUnavailable else NowAvailable
  {
    var page := new ProfilePage(u);
    var start := page.availableToDonate;
    first := page.ToggleAvailability();
    second := page.ToggleAvailability();
    restored := page.availableToDonate == start;
  }
}
