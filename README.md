# Blood-donation portal: session, handlers and view logic

This project models the blood-donation portal in Dafny: a React client over a FastAPI/MongoDB backend. It models three parts of it:

- **The client session (App.js).** `App` holds:
  - the browser's `"token"` storage slot;
  - the `token`, `user` and `loading` state;
  - the `[token]` dependency its effect last ran with.

  `fetchUser`, `login` and `logout` are methods that change this state. The identity fetch is an explicit `Ok(user) | Err` input. The route table is a pure function of the path and `user`.
- **The backend handlers (server.py).**
  - Each Mongo collection is a `seq` of documents (`map<string, Value>`) held by a `Database` class.
  - A query is a map of equality constraints.
  - `find` is filter, then a stable sort by one key, then a cap of 1000 records.
  - The handlers build their query dictionaries key by key with Python truthiness.
  - Registration, login, the bearer-token check, the status update and the donation insert are modelled with their error cases.
  - bcrypt and JWT are a `Crypto` value of uninterpreted functions. One relation, `Sound`, ties them together: a password checks against its own hash, and a token decodes to its claims until it expires.
- **The page logic.** This covers:
  - the query-parameter lists the pages build by successive `append`;
  - the urgency, facility-colour and role-badge lookup tables with their defaults;
  - the relative "posted" time;
  - the service and blood-type toggles;
  - the totals, lives-saved figure and pluralisation;
  - the initials, location line, availability switch and mobile-menu labels;
  - the prefix slices;
  - each page's stateful fetch, add and reset.

Modules:

- `Wrappers` and `Text` hold the shared datatypes and the string helpers: ASCII upper-casing, split and join, decimal rendering with its parse-back, substring search and first-occurrence replace.
- `Domain` holds the client-side JSON records.
- `UrlParams` holds `URLSearchParams` lists.
- `Session`, `Documents` and `Server` follow App.js and server.py.
- `BloodRequests`, `MedicalFacilities`, `DonationHistory`, `Profile` and `Dashboard` follow the pages.

The model follows two quirks of App.js rather than smoothing them over:

- The effect depends on `[token]`, so `login` triggers a fresh `fetchUser`.
- A failed fetch erases the slot and clears `token` but leaves `user` as it was. The guards test `user` only, so after a rejected refetch the protected pages still render.

## Model

| member | source | states |
|---|---|---|
| Session.RouteElement | App.js:169-177 | `/` always renders the landing page. `/login` and `/register` render iff `user` is null, and otherwise redirect to `/dashboard`. The six protected paths render iff `user` is set, and otherwise redirect to `/login`. A path spelled as none of these has no route in the model. A rendered page is the one at that path. |
| Session.View | App.js:153-165 | While `loading` only the spinner renders. Otherwise the router's element for the path renders. |
| Session.App.constructor | App.js:111-114 | `token` starts as the stored slot, `user` as null and `loading` as true. The effect is due on the first commit. |
| Session.App.FetchUser | App.js:124-137 | Success sets `user` to the response and keeps the token. Failure erases the slot and nulls `token`, but keeps `user`. Both end with `loading` false. |
| Session.App.Commit | App.js:116-122 | The effect runs iff `[token]` changed since it last ran. It fetches iff the token is truthy, and otherwise only clears `loading`. With no change nothing moves, so `loading` never returns to true. |
| Session.App.Login | App.js:139-144 | The slot and `token` hold the new token, and `user` holds the given record. |
| Session.App.Logout | App.js:146-151 | The slot is erased, and `token` and `user` are null. |
| Session.StartWithoutToken | App.js:113-122 | With no stored token, no fetch is issued, loading ends, and a protected path redirects to `/login`. |
| Session.StartWithAcceptedToken | App.js:113-137 | While the first fetch is pending only the spinner renders. Once the token is accepted, the user is the fetched one and `/login` redirects to `/dashboard`. |
| Session.StartWithRejectedToken | App.js:116-137 | A rejected stored token leaves the slot, `token` and `user` empty. The effect re-runs once for the cleared token without a second fetch, and `/dashboard` redirects to `/login`. |
| Session.LoginRefetches | App.js:116-122 | `login` changes `[token]`, so the user is fetched again and the fetched record replaces the one `login` set. |
| Session.RejectedAfterLogin | App.js:130-133 | If the refetch after `login` fails, `token` and the slot are cleared but `user` stays. `/dashboard` still renders and `/login` still redirects. |
| Session.LogoutTwice | App.js:146-151 | A second `logout` leaves the same state as the first. |
| Documents.Filter | server.py:274 | Every result matches every key of the query, and each matching document appears as often as in the collection. Non-matching documents do not appear. |
| Documents.FirstMatch | server.py:299-301 | The position of the first matching document, or none iff nothing matches; `update_one` changes that one. |
| Documents.FindOne | server.py:197 | None iff no document matches. Otherwise the result is the first matching document of the collection: no earlier document matches. |
| Documents.Find | server.py:274 | Every result matches the query. The results are sorted by the key in the given direction, hold at most 1000 records, and are a sub-multiset of the collection: exactly the matches when there are at most 1000. Above 1000 matches, the kept records are the first in sort order: every match left out may come after each one kept (`KeptFirst`). |
| Documents.TakeKeepsFirst | server.py:274 | Cutting a sorted list with `to_list(n)` keeps records that may each precede every record dropped. |
| Documents.Project | server.py:330 | The hidden fields are removed and every other field is kept. |
| Server.UserObject | server.py:232 | `User(**doc)` keeps exactly the model's fields, so it never has a `password`. |
| Server.AccessClaims | server.py:164-167 | The token's `exp` is exactly 10080 minutes after issue. |
| Server.Authenticate | server.py:171-190 | Every failure is a 401 with its own message: expired, undecodable, no `sub`, or unknown user. It succeeds iff the token decodes with a `sub` that is some stored user's id, and then returns the User fields of the first stored user with that id, so without a password. |
| Server.IssuedTokenLifetime | server.py:164-190 | A token issued for a stored user authenticates that user until exactly 10080 minutes (server.py:27) later, and is "Token has expired" from then on. |
| Server.NewUser | server.py:205-210 | The stored user: the model's fields, with `available_to_donate` defaulting to true. |
| Server.StoredUser | server.py:202-209 | The stored document adds the password hash, and reading it back as a `User` gives the new user. |
| Server.Login | server.py:219-236 | An unknown email and a wrong password give the same 401 "Invalid email or password". A success returns a stored user with that email, without a password, as a bearer token. The token is `create_access_token` of the user's id and email at the login time. When the first user with that email has a string password that checks, the login succeeds with that user's User fields. |
| Server.AddFilter | server.py:267-272 | An optional filter adds its key iff its value is truthy, and leaves every other key as it was. |
| Server.BuildRequestQuery | server.py:266-272 | The dict built one `if` at a time equals `BloodRequestQuery` of the parameters. |
| Server.BloodRequestQuery | server.py:264-272 | The query always has `status` (default "active"). It has `blood_type`, `city` and `urgency` exactly when they are truthy, with their values. |
| Server.BuildDonorQuery | server.py:320-329 | The dict built one `if` at a time equals `DonorQuery` of the parameters. |
| Server.DonorQuery | server.py:320-328 | The query always has `role == "donor"`, the exact blood type and `available_to_donate == true`. It has `city` and `state` when truthy. |
| Server.BuildFacilityQuery | server.py:355-359 | The dict built one `if` at a time equals `FacilityQuery` of the parameters. |
| Server.FacilityQuery | server.py:355-359 | The query has only the truthy filters, and is empty when neither is given. |
| Server.Database.Register | server.py:194-217 | A registered email gives 400 and stores nothing. Otherwise the user is appended with the password hash, and the response carries the new user (no password) and its token. |
| Server.Database.GetBloodRequests | server.py:259-282 | The query is `BloodRequestQuery` of the parameters. The result is `find` of it by `created_at` descending, and every result has the requested status. |
| Server.Database.UpdateRequestStatus | server.py:297-310 | An unauthenticated call is refused and changes nothing. An unknown id is 404 and changes nothing. Otherwise, on the first request with that id, `status` is set, and `fulfilled_at` is set to the current time iff the status is "fulfilled" (null otherwise). |
| Server.Database.FindMatchingDonors | server.py:314-336 | The query is `DonorQuery`. Every result is an available donor of exactly that blood type, with no `password` field. |
| Server.Database.GetMedicalFacilities | server.py:350-367 | The query is `FacilityQuery`, and the result is `find` of it by `name` ascending. |
| Server.Database.CreateDonationHistory | server.py:382-398 | A non-donor gets 403 and nothing is stored. Otherwise the record, with the current user as donor, is appended and returned. |
| Server.Database.GetDonationHistory | server.py:400-410 | The query is the current user's id, and the result is newest first. Every record listed belongs to the current user. |
| Server.FindAll | server.py:355-361 | With no filter every facility is listed, up to the cap. |
| Server.NewDonation | server.py:386-396 | `donor_id` and `donor_name` come from the current user, and `donation_date` is the current time. |
| Server.LoginAfterStore | server.py:219-236 | Once a new email's user is stored, logging in with its password succeeds and returns that user as registered. |
| Server.LoginTokenLifetime | server.py:219-236 | When the new user's id is also unused, the token login returns authenticates that user until exactly 10080 minutes after the login, and is "Token has expired" from then on. |
| Server.RegisterThenLogin | server.py:194-236 | After registering a new email, logging in with the same password succeeds and returns the registered user, without its password. |
| UrlParams.Get | BloodRequest.jsx:33-37 | A lookup gives the first entry with the key, and none iff no entry has it. |
| UrlParams.GetAppend | BloodRequest.jsx:33-37 | A lookup in appended lists finds the key in the first list if it is there. |
| BloodRequests.RequestParams | BloodRequest.jsx:33-37 | The list starts with `status=active` and holds no empty value. |
| BloodRequests.RequestParamsGet | BloodRequest.jsx:33-37 | `status` is "active", and each filter is present exactly when it is non-empty, with its value. |
| BloodRequests.RequestParamsOrdered | BloodRequest.jsx:33-37 | The keys come in the order status, blood_type, city, urgency, each at most once. |
| BloodRequests.FiltersReachServer | BloodRequest.jsx:33-37 | The server's query built from these parameters (server.py:264-272) asks for active requests and holds exactly the filters that are set. |
| BloodRequests.ClearedParams | BloodRequest.jsx:167 | With every filter cleared, only `status=active` is sent. |
| BloodRequests.UrgencyColor | BloodRequest.jsx:51-59 | A known level gets its own classes, and anything else gets medium's. |
| BloodRequests.UrgencyColorsDistinct | BloodRequest.jsx:51-59 | The four levels have four different badges. |
| BloodRequests.UnknownLooksMedium | BloodRequest.jsx:51-59 | An unknown level looks exactly like "medium". |
| BloodRequests.Capitalize | BloodRequest.jsx:157 | The first character is upper-cased, and the rest is unchanged. |
| BloodRequests.UrgencyLabels | BloodRequest.jsx:155-158 | The option labels are Low, Medium, High, Critical. |
| BloodRequests.CapitalizeIdempotent | BloodRequest.jsx:157 | Capitalising twice is capitalising once. |
| BloodRequests.LabelMatchesBadge | BloodRequest.jsx:157-220 | The option label upper-cased is the card's upper-cased badge. |
| BloodRequests.FormatDate | BloodRequest.jsx:61-72 | "Just now" iff under one whole hour, including future dates. Otherwise "N hours ago" below 24 hours, with no singular. At 24 hours or more, "1 day ago" iff under two days, and otherwise "N days ago" with N the whole days. |
| BloodRequests.FloorHoursToDays | BloodRequest.jsx:65-66 | Whole hours divided into whole days give the whole days of the difference. |
| BloodRequests.HoursReadBack | BloodRequest.jsx:68-69 | The number in "N hours ago" reads back as the whole hours. |
| BloodRequests.BloodRequestsPage.FetchRequests | BloodRequest.jsx:30-49 | The parameters appended are `RequestParams` of the filters. The list becomes the response, or is kept on failure, and `loading` ends false. |
| BloodRequests.BloodRequestsPage.ClearFilters | BloodRequest.jsx:167 | All three filters become empty. |
| BloodRequests.ClearThenFetch | BloodRequest.jsx:167 | Clearing the filters and fetching sends `status=active` alone. |
| MedicalFacilities.FacilityParams | MedicalFacilities.jsx:56-58 | At most two non-empty entries, and none iff no filter is set. |
| MedicalFacilities.FacilityParamsGet | MedicalFacilities.jsx:56-58 | Each filter is sent exactly when set, `city` before `facility_type`, and no status is sent. |
| MedicalFacilities.NoFiltersListAll | MedicalFacilities.jsx:56-58 | For every filter state, the server's query (server.py:355-359) built from the sent parameters is empty iff no filter is set. |
| MedicalFacilities.Without | MedicalFacilities.jsx:101 | The value is gone, and every other value keeps its count. |
| MedicalFacilities.WithoutSingleton | MedicalFacilities.jsx:102 | One element is kept iff it differs from the value. |
| MedicalFacilities.WithoutConcat | MedicalFacilities.jsx:102 | Filtering a concatenation filters each part, so the kept values stay in their order. |
| MedicalFacilities.WithoutAbsent | MedicalFacilities.jsx:101 | Filtering out an absent value changes nothing. |
| MedicalFacilities.Toggle | MedicalFacilities.jsx:98-114 | Membership of the value flips, and every other value keeps its count. A present value is removed everywhere, and an absent one is appended at the end. |
| MedicalFacilities.ToggleTwiceAbsent | MedicalFacilities.jsx:101-103 | Toggling an absent value twice gives the list back. |
| MedicalFacilities.ToggleTwicePresent | MedicalFacilities.jsx:101-103 | Toggling a present value twice leaves one copy of it, at the end. |
| MedicalFacilities.FacilityColor | MedicalFacilities.jsx:120-128 | Each of the four types gets its own listed gradient, and an unknown type gets the hospital's. |
| MedicalFacilities.FacilityColorsDistinct | MedicalFacilities.jsx:120-128 | The four types have four different gradients. |
| MedicalFacilities.BorderOf | MedicalFacilities.jsx:392 | Blue iff the gradient mentions "blue". Otherwise rose iff it mentions "rose", and green when it mentions neither. |
| MedicalFacilities.GradientBorders | MedicalFacilities.jsx:392 | Hospital is blue and blood bank is rose. Clinic and diagnostic centre are both green. |
| MedicalFacilities.BorderColors | MedicalFacilities.jsx:392 | The border of every facility type, with an unknown type blue. |
| MedicalFacilities.ServicesSummary | MedicalFacilities.jsx:427-444 | Hidden for no services. Otherwise the first three at most are shown, and "+(n-3) more" appears iff n > 3. |
| MedicalFacilities.ServicesAccounted | MedicalFacilities.jsx:431-440 | The chips and the "+n more" number together count every service. |
| MedicalFacilities.TypeLabel | MedicalFacilities.jsx:401 | Only the first `_` becomes a space, and a type without `_` is unchanged. |
| MedicalFacilities.LabelFirstUnderscore | MedicalFacilities.jsx:401 | Underscores after the first one stay. |
| MedicalFacilities.BloodBankLabel | MedicalFacilities.jsx:401 | The type string "blood_bank" reads "blood bank". |
| MedicalFacilities.MedicalFacilitiesPage.constructor | MedicalFacilities.jsx:17-34 | No filters, and an empty form with type "hospital". |
| MedicalFacilities.MedicalFacilitiesPage.FetchFacilities | MedicalFacilities.jsx:53-70 | The parameters appended are `FacilityParams`. The list becomes the response, or is kept on failure. |
| MedicalFacilities.MedicalFacilitiesPage.AddFacility | MedicalFacilities.jsx:72-95 | After a successful POST the dialog closes, the form resets to its defaults and the list is refetched. After a failed one nothing changes. |
| MedicalFacilities.MedicalFacilitiesPage.ToggleService | MedicalFacilities.jsx:98-105 | Only the services list changes, and by `Toggle`. |
| MedicalFacilities.MedicalFacilitiesPage.ToggleBloodType | MedicalFacilities.jsx:107-114 | Only the blood-types list changes, and by `Toggle`. |
| MedicalFacilities.TickUntick | MedicalFacilities.jsx:98-105 | Ticking a new service and unticking it leaves the form as it was. |
| DonationHistory.TotalUnits | DonationHistory.jsx:82-84 | The total is 0 for an empty history, and non-negative when the units are. |
| DonationHistory.TotalUnitsAppend | DonationHistory.jsx:82-84 | The total of two histories is the sum of their totals. |
| DonationHistory.TotalAtLeastCount | DonationHistory.jsx:82-84 | With at least one unit each, the total is at least the count. |
| DonationHistory.RecordedDonation | DonationHistory.jsx:82-84 | One more donation raises the total by its units. |
| DonationHistory.LivesSaved | DonationHistory.jsx:255 | The figure is a multiple of three. |
| DonationHistory.LivesSavedRecorded | DonationHistory.jsx:255 | Zero for an empty history, and each donation adds three lives per unit. |
| DonationHistory.LivesSavedBound | DonationHistory.jsx:255 | At least three lives per donation of a unit or more. |
| DonationHistory.UnitWord | DonationHistory.jsx:303 | "unit" iff exactly one unit, and "units" otherwise. |
| DonationHistory.DonationWord | DonationHistory.jsx:336 | "donation" iff the count is one, and "donations" otherwise. |
| DonationHistory.View | DonationHistory.jsx:86-340 | The donor-only notice iff the user is not a donor. Otherwise the stats are the count, total and lives saved. The spinner shows iff loading, the empty notice iff the history is empty, and one card per donation, the i-th headed by the i-th donation. The thank-you card shows iff the history is non-empty. Its text is "Your N donation(s) have made a real difference in saving lives. Keep up the amazing work!", with the count and its pluralised word. |
| DonationHistory.DefaultForm | DonationHistory.jsx:20-25 | The user's blood type if truthy (else empty), one unit, and empty hospital and city. |
| DonationHistory.DonationHistoryPage.constructor | DonationHistory.jsx:17-25 | Empty history, loading, and the default form. |
| DonationHistory.DonationHistoryPage.FetchHistory | DonationHistory.jsx:37-50 | The list becomes the response, or is kept on failure, and loading ends. |
| DonationHistory.DonationHistoryPage.UserEffect | DonationHistory.jsx:29-35 | A fetch happens iff the user is a donor, and loading ends either way. |
| DonationHistory.DonationHistoryPage.AddDonation | DonationHistory.jsx:52-70 | After a successful POST the dialog closes, the form returns to its defaults and the list is refetched. After a failed one nothing changes. |
| DonationHistory.NonDonorSeesNotice | DonationHistory.jsx:29-117 | A non-donor triggers no fetch and sees the donor-only notice. |
| DonationHistory.AddResetsForm | DonationHistory.jsx:60-65 | After a recorded donation, the form equals its initial value. |
| Profile.FirstChars | Profile.jsx:21 | One character per non-empty part. When every part is non-empty, the i-th character is the first character of the i-th part. |
| Profile.NonEmptyCount | Profile.jsx:20-21 | No more than the number of parts, and all of them when none is empty. |
| Profile.Initials | Profile.jsx:18-25 | At most two characters, none lower-case. |
| Profile.InitialsCutFirst | Profile.jsx:22-24 | Upper-casing then cutting to two characters is cutting then upper-casing. |
| Profile.OneWordInitial | Profile.jsx:18-25 | A one-word name gives its upper-cased first letter. |
| Profile.DefaultNameInitial | Profile.jsx:78 | "User" gives "U". |
| Profile.TwoWordInitials | Profile.jsx:18-25 | A first and a last name give both initials, upper-cased. |
| Profile.FirstTwoChars | Profile.jsx:20-21 | When the first two parts are non-empty, the list of first letters begins with their two first letters. |
| Profile.InitialsOfParts | Profile.jsx:18-25 | A name whose first two parts are non-empty gives their two first letters, upper-cased, whatever follows. |
| Profile.ThirdWordDropped | Profile.jsx:18-25 | With three or more words, only the first two count. |
| Profile.AvatarName | Profile.jsx:78 | The user's name if set, and otherwise "User". |
| Profile.NamelessAvatar | Profile.jsx:78 | Without a name the avatar shows "U". |
| Profile.RoleBadge | Profile.jsx:27-35 | Each of the four roles gets its listed caption and colour, and an unknown or missing role gets the beneficiary badge. |
| Profile.RoleBadgesDistinct | Profile.jsx:27-35 | The four roles have four different captions and colours. |
| Profile.InitialAvailability | Profile.jsx:16 | The stored flag if it is set, and otherwise true. |
| Profile.LocationLine | Profile.jsx:124-131 | A line iff city or state is set, made of the set ones joined with ", ". |
| Profile.ProfilePage.constructor | Profile.jsx:16 | The switch starts at `InitialAvailability`. |
| Profile.ProfilePage.ToggleAvailability | Profile.jsx:37-45 | The switch flips, and the message is chosen from the old value. |
| Profile.ToggleTwice | Profile.jsx:37-45 | Two flips restore the switch with two different messages. |
| Dashboard.RecentParamsUnfiltered | Dashboard.jsx:33-34 | The dashboard sends what the requests page sends with no filter. |
| Dashboard.StatCards | Dashboard.jsx:151-190 | No cards iff `stats` is null. Otherwise four cards in order: donors, active, fulfilled, facilities. |
| Dashboard.UrgencyColor | Dashboard.jsx:50-58 | A known level gets its classes, and anything else gets medium's. |
| Dashboard.SameUrgencyLevels | Dashboard.jsx:50-58 | The dashboard and the requests page (BloodRequest.jsx:51-59) know the same levels and share the fallback. |
| Dashboard.UrgencyColorsDistinct | Dashboard.jsx:50-58 | The four levels have four different badges. |
| Dashboard.HighlightUnique | Dashboard.jsx:127 | At most one menu item is highlighted. |
| Dashboard.FirstWord | Dashboard.jsx:299 | The prefix of the label before its first space, or the whole label when it has no space. |
| Text.SplitFirstPart | Dashboard.jsx:299 | The first part of `split(sep)` is the text before the first separator, or the whole string when it has none. |
| Dashboard.FirstWordOf | Dashboard.jsx:299 | A word followed by a space gives that word. |
| Dashboard.MobileNav | Dashboard.jsx:287-299 | Exactly the first four menu items, each labelled with its label's first word. |
| Dashboard.MobileBarOmitsHistory | Dashboard.jsx:287 | The mobile bar has no donation-history item. |
| Dashboard.DashboardLabel | Dashboard.jsx:299 | The first mobile label is "Dashboard". |
| Dashboard.BloodLabel | Dashboard.jsx:299 | The second mobile label is "Blood". |
| Dashboard.CreateLabel | Dashboard.jsx:299 | The third mobile label is "Create". |
| Dashboard.MedicalLabel | Dashboard.jsx:299 | The fourth mobile label is "Medical". |
| Dashboard.DashboardPage.FetchStats | Dashboard.jsx:22-29 | The stats become the response, and stay as they were on failure. |
| Dashboard.DashboardPage.FetchRecentRequests | Dashboard.jsx:31-40 | Sends `status=active`. The list is the first five (or fewer) requests of the response, in order, and is kept on failure. |
| Dashboard.DashboardPage.ToggleMobileMenu | Dashboard.jsx:90 | The menu flag flips. |
| Dashboard.Mount | Dashboard.jsx:17-151 | No stat cards iff the stats fetch fails, and at most five recent requests. |

## Left out

- Network and UI effects are replaced by explicit inputs (a response or a failure) or left out:
  - axios calls and the `async`/`await` ordering of several pending requests;
  - `toast`, `navigate`, `console.error`, and `window.location` `tel:` links.
- FastAPI routing, CORS, dotenv, logging and the Mongo driver are left out. Collections are in-memory sequences, and the `_id` projection is not modelled.
- bcrypt and JWT internals:
  - `Crypto` values stand for them.
  - The hash relation and the expiry relation (`Sound`) are the only assumptions.
  - The salt is an input.
- The clock and generated UUIDs are inputs.
- `datetime.fromisoformat` and `isoformat` conversions are not modelled; server times are integer seconds. The client's `new Date(...)` parsing and the `toLocaleDateString` formatting are not modelled either.
- Server.Authenticate: `jwt.JWTError` is not an attribute of PyJWT's `jwt` module. Python evaluates that `except` clause for every exception the `try` raises other than an expired signature, and evaluating it fails. So two cases would in fact end in a server error (500):
  - an undecodable token, modelled as 401 "Could not validate credentials";
  - a decoded payload without `sub`, whose `HTTPException` is raised inside the same `try`, modelled as 401 "Invalid authentication credentials".

  In both cases the model follows the evident intent rather than the 500.
- Pydantic defaults are modelled only for `available_to_donate`, and only at registration (`NewUser`). `UserObject` fills no default when it reads a stored document. The `id` default factory that `User(**doc)` would apply at login is not modelled either: for a stored user without an `id`, the model's `Login` issues a token without `sub`. Pydantic validation is not modelled: `EmailStr` normalisation, field types, and `created_at` defaults.
- Server.Login: a stored user without a `password` field is modelled as a 500. The hand-off of exceptions to FastAPI is not modelled.
- Documents.Find: ties in the sort key keep collection order (a stable sort). MongoDB does not promise an order for ties. Values of different types are ordered by a fixed type rank, not by BSON's full comparison order.
- Session.RouteElement: compares the path exactly. React Router v6 matches route paths case-insensitively and ignores trailing slashes, so `/Dashboard` and `/login/` reach the same guards in the client; the model gives them no route.
- JavaScript object lookups are modelled as maps of the listed keys. Inherited prototype keys such as `"constructor"` are not modelled.
- `toUpperCase` is modelled for ASCII letters only.
- Profile.Initials: a string here is a sequence of Unicode scalar values. JavaScript indexes strings (`n[0]`, `slice(0, 2)`) by UTF-16 code unit, so this code-unit indexing is not modelled. For a name whose word starts outside the Basic Multilingual Plane (an emoji, say), the source takes a lone surrogate where the model takes the whole character, and the initials differ.
- `URLSearchParams` percent-encoding is not modelled, and neither is `parseInt` producing NaN in the units field.
- `get_stats`, the blood-request and facility creation routes, and the single-record GET routes are not modelled. Neither are the Register/Login/CreateRequest forms, the landing page, or the JSX markup beyond the lookup tables and the conditions named above.
- DonationHistory.TotalUnits: models the JavaScript `+` on integers as unbounded addition. Floating-point rounding of very large totals is not modelled.
- BloodRequests.FormatDate: takes the millisecond difference `now - date` as an integer input. Date parsing and invalid dates (`NaN`) are not modelled.

